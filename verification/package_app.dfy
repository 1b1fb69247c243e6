/**
 * Scripts/package_app.py: assembling the release package of one platform on the file
 * tree, the archives made from it, and the macOS disk image.
 *
 * Each step is a method on the `Workspace` proved against a function of the tree it
 * starts from. The texts written into the package arrive as a `Documents` value;
 * `PackageTemplates.DocumentsFor(pl)` gives the ones `package_app.py` writes.
 * External programs (`create-dmg`) are oracle parameters.
 */
module PackageApp {
  import opened Wrappers
  import opened PyStr
  import opened FileTree
  import opened Workspaces
  import opened PackageTemplates

  // ---------------------------------------------------------------------------
  // Where things are

  /** `output_dir / platform` */
  function PlatformDir(out: Path, pl: Platform): Path {
    out + [PlatformName(pl)]
  }

  /** `dist/{platform}/{executable_name}`, where the build leaves the native executable. */
  function BuiltExecutable(pl: Platform): Path {
    ["dist", PlatformName(pl), ExecutableName(pl)]
  }

  /** `output_dir / "Jumperless Python"` */
  function PythonDir(dir: Path): Path {
    dir + [PythonDirName]
  }

  const BridgeSource: Path := [BridgeName]
  const RequirementsSource: Path := [RequirementsName]
  const AssetsSource: Path := [AssetsName]

  /** The output directory `main` uses. */
  const BuildsDir: Path := ["builds"]

  // ---------------------------------------------------------------------------
  // create_launcher_scripts

  /** `run_jumperless.sh`, written and made executable. */
  function ShellWrapperWritten(t: Tree, py: Path, docs: Documents): FsResult<Tree> {
    var written :- WriteText(t, py + [ShellWrapperName], docs.shellWrapper);
    Chmod(written, py + [ShellWrapperName], ExecutableMode)
  }

  /** `launcher.py` always, `run_jumperless.sh` on Linux and macOS, `run_jumperless.bat`
      on Windows. */
  function LauncherScripts(t: Tree, py: Path, pl: Platform, docs: Documents): FsResult<Tree> {
    var launcher :- WriteText(t, py + [LauncherName], docs.launcher);
    var shell :- if IsUnix(pl) then ShellWrapperWritten(launcher, py, docs) else Success(launcher);
    if pl == Windows then WriteText(shell, py + [BatchWrapperName], docs.batchWrapper)
    else Success(shell)
  }

  method CreateLauncherScripts(ws: Workspace, py: Path, pl: Platform, docs: Documents) returns (st: Status)
    modifies ws
    ensures st == StatusOf(LauncherScripts(old(ws.tree), py, pl, docs))
    ensures ws.warnings == old(ws.warnings)
    ensures st.Done? ==> ws.tree == LauncherScripts(old(ws.tree), py, pl, docs).value
  {
    st := ws.WriteFile(py + [LauncherName], Text(docs.launcher));
    if st.Crashed? {
      return;
    }
    if IsUnix(pl) {
      st := ws.WriteFile(py + [ShellWrapperName], Text(docs.shellWrapper));
      if st.Crashed? {
        return;
      }
      st := ws.Chmod(py + [ShellWrapperName], ExecutableMode);
      if st.Crashed? {
        return;
      }
    }
    if pl == Windows {
      st := ws.WriteFile(py + [BatchWrapperName], Text(docs.batchWrapper));
    }
  }

  // ---------------------------------------------------------------------------
  // create_python_fallback

  /** `shutil.copy2(src, py)` when `Path(src).exists()`. */
  function CopyIfPresent(t: Tree, src: Path, py: Path): FsResult<Tree> {
    if src in t then CopyFile(t, src, py) else Success(t)
  }

  /** The bridge source and `requirements.txt`, each copied into `py` if it exists. */
  function FallbackFiles(t: Tree, py: Path): FsResult<Tree> {
    var bridge :- CopyIfPresent(t, BridgeSource, py);
    CopyIfPresent(bridge, RequirementsSource, py)
  }

  /** `copytree("assets", py / "assets", dirs_exist_ok=True)` if `assets` exists. */
  function AssetsCopied(t: Tree, py: Path): FsResult<Tree> {
    if AssetsSource in t then CopyTree(t, AssetsSource, py + [AssetsName], true) else Success(t)
  }

  /** The `Jumperless Python` folder made inside `dir`, with whichever of the bridge
      source, `requirements.txt` and `assets` exist copied into it. */
  function FallbackSources(t: Tree, dir: Path): FsResult<Tree> {
    var made :- MakeDirs(t, PythonDir(dir), true);
    var files :- FallbackFiles(made, PythonDir(dir));
    AssetsCopied(files, PythonDir(dir))
  }

  /** The `Jumperless Python` folder inside `dir`: the sources that exist, the launcher
      scripts and the README. */
  function PythonFallback(t: Tree, dir: Path, pl: Platform, docs: Documents): FsResult<Tree> {
    var sources :- FallbackSources(t, dir);
    FallbackDocs(sources, PythonDir(dir), pl, docs)
  }

  /** The launcher scripts and the fallback README written into `py`. */
  function FallbackDocs(t: Tree, py: Path, pl: Platform, docs: Documents): FsResult<Tree> {
    var scripts :- LauncherScripts(t, py, pl, docs);
    WriteText(scripts, py + [ReadmeName], docs.pythonReadme)
  }

  method CopyFileIfPresent(ws: Workspace, src: Path, py: Path) returns (st: Status)
    modifies ws
    ensures st == StatusOf(CopyIfPresent(old(ws.tree), src, py))
    ensures ws.warnings == old(ws.warnings)
    ensures st.Done? ==> ws.tree == CopyIfPresent(old(ws.tree), src, py).value
  {
    st := Done;
    if src in ws.tree {
      st := ws.CopyFile(src, py);
    }
  }

  method CreatePythonFallback(ws: Workspace, dir: Path, pl: Platform, docs: Documents) returns (st: Status)
    modifies ws
    ensures st == StatusOf(PythonFallback(old(ws.tree), dir, pl, docs))
    ensures ws.warnings == old(ws.warnings)
    ensures st.Done? ==> ws.tree == PythonFallback(old(ws.tree), dir, pl, docs).value
  {
    var py := PythonDir(dir);
    st := ws.MakeDirs(py, true);
    if st.Crashed? {
      return;
    }
    st := CopyFileIfPresent(ws, BridgeSource, py);
    if st.Crashed? {
      return;
    }
    st := CopyFileIfPresent(ws, RequirementsSource, py);
    if st.Crashed? {
      return;
    }
    if AssetsSource in ws.tree {
      st := ws.CopyTree(AssetsSource, py + [AssetsName], true);
      if st.Crashed? {
        return;
      }
    }
    st := CreateLauncherScripts(ws, py, pl, docs);
    if st.Crashed? {
      return;
    }
    st := ws.WriteFile(py + [ReadmeName], Text(docs.pythonReadme));
  }

  // ---------------------------------------------------------------------------
  // package_platform

  /** Copies the native executable into `dir` if the build left one, and makes it
      executable except on Windows. */
  function ExecutableCopied(t: Tree, dir: Path, pl: Platform): FsResult<Tree> {
    if BuiltExecutable(pl) !in t then Success(t)
    else
      var copied :- CopyFile(t, BuiltExecutable(pl), dir);
      if pl != Windows then Chmod(copied, dir + [ExecutableName(pl)], ExecutableMode) else Success(copied)
  }

  /** The warning printed when the build left no executable. */
  function ExecutableWarnings(t: Tree, pl: Platform): seq<Warning> {
    if BuiltExecutable(pl) in t then [] else [ExecutableNotFound(BuiltExecutable(pl))]
  }

  /** The platform directory with the executable, the Python fallback and the README:
      `package_platform` up to the DMG. */
  function Assembled(t: Tree, out: Path, pl: Platform, docs: Documents): FsResult<Tree> {
    var dir := PlatformDir(out, pl);
    var made :- MakeDirs(t, dir, true);
    var withExecutable :- ExecutableCopied(made, dir, pl);
    var withFallback :- PythonFallback(withExecutable, dir, pl, docs);
    WriteText(withFallback, dir + [ReadmeName], docs.platformReadme)
  }

  /** The warnings of the assembly: the missing executable, looked up once the
      platform directory exists. */
  function AssemblyWarnings(t: Tree, out: Path, pl: Platform): seq<Warning> {
    var made := MakeDirs(t, PlatformDir(out, pl), true);
    if made.Success? then ExecutableWarnings(made.value, pl) else []
  }

  method CopyExecutable(ws: Workspace, dir: Path, pl: Platform) returns (st: Status)
    modifies ws
    ensures st == StatusOf(ExecutableCopied(old(ws.tree), dir, pl))
    ensures st.Done? ==> ws.tree == ExecutableCopied(old(ws.tree), dir, pl).value
    ensures st.Done? ==> ws.warnings == old(ws.warnings) + ExecutableWarnings(old(ws.tree), pl)
  {
    var source := BuiltExecutable(pl);
    if source in ws.tree {
      st := ws.CopyFile(source, dir);
      if st.Crashed? {
        return;
      }
      if pl != Windows {
        st := ws.Chmod(dir + [ExecutableName(pl)], ExecutableMode);
      }
    } else {
      ws.Warn(ExecutableNotFound(source));
      st := Done;
    }
  }

  method AssemblePlatform(ws: Workspace, out: Path, pl: Platform, docs: Documents) returns (st: Status)
    modifies ws
    ensures st == StatusOf(Assembled(old(ws.tree), out, pl, docs))
    ensures st.Done? ==> ws.tree == Assembled(old(ws.tree), out, pl, docs).value
    ensures st.Done? ==> ws.warnings == old(ws.warnings) + AssemblyWarnings(old(ws.tree), out, pl)
  {
    var dir := PlatformDir(out, pl);
    st := ws.MakeDirs(dir, true);
    if st.Crashed? {
      return;
    }
    st := CopyExecutable(ws, dir, pl);
    if st.Crashed? {
      return;
    }
    st := CreatePythonFallback(ws, dir, pl, docs);
    if st.Crashed? {
      return;
    }
    st := ws.WriteFile(dir + [ReadmeName], Text(docs.platformReadme));
  }

  // ---------------------------------------------------------------------------
  // What the assembly leaves behind

  /** `launcher.py` is always written; `run_jumperless.sh`, with mode 0o755, exactly on
      Linux and macOS; `run_jumperless.bat` exactly on Windows; nothing else changes. */
  lemma LauncherScriptsEffect(t: Tree, py: Path, pl: Platform, docs: Documents)
    requires LauncherScripts(t, py, pl, docs).Success?
    ensures var u := LauncherScripts(t, py, pl, docs).value;
      && IsFile(u, py + [LauncherName]) && u[py + [LauncherName]].content == Text(docs.launcher)
      && (IsUnix(pl) ==> py + [ShellWrapperName] in u && u[py + [ShellWrapperName]] == File(Text(docs.shellWrapper), ExecutableMode))
      && (!IsUnix(pl) ==> SameAt(t, u, py + [ShellWrapperName]))
      && (pl == Windows ==> IsFile(u, py + [BatchWrapperName]) && u[py + [BatchWrapperName]].content == Text(docs.batchWrapper))
      && (pl != Windows ==> SameAt(t, u, py + [BatchWrapperName]))
      && forall q :: q != py + [LauncherName] && q != py + [ShellWrapperName] && q != py + [BatchWrapperName] ==> SameAt(t, u, q)
  {
    var l := py + [LauncherName];
    var sh := py + [ShellWrapperName];
    var bat := py + [BatchWrapperName];
    SiblingsApart(py, LauncherName, ShellWrapperName);
    SiblingsApart(py, LauncherName, BatchWrapperName);
    SiblingsApart(py, ShellWrapperName, BatchWrapperName);
    assert WriteText(t, l, docs.launcher).Success?;
    WriteFileValue(t, l, Text(docs.launcher));
    var launcher := WriteText(t, l, docs.launcher).value;
    var m := if l in t && t[l].File? then t[l].mode else NewFileMode;
    var ms := if sh in launcher && launcher[sh].File? then launcher[sh].mode else NewFileMode;
    var shell := if IsUnix(pl) then ShellWrapperWritten(launcher, py, docs).value else launcher;
    if IsUnix(pl) {
      ShellWrapperValue(launcher, py, docs);
    }
    var u := LauncherScripts(t, py, pl, docs).value;
    var mb := if bat in shell && shell[bat].File? then shell[bat].mode else NewFileMode;
    if pl == Windows {
      WriteFileValue(shell, bat, Text(docs.batchWrapper));
    }
    LauncherScriptsFrom(t, launcher, shell, u, py, pl, docs, m, ms, mb);
  }

  /** The tree `ShellWrapperWritten` leaves: the text written, then the mode set. */
  lemma ShellWrapperValue(t: Tree, py: Path, docs: Documents)
    requires ShellWrapperWritten(t, py, docs).Success?
    ensures var sh := py + [ShellWrapperName];
      ShellWrapperWritten(t, py, docs).value
        == t[sh := File(Text(docs.shellWrapper), if sh in t && t[sh].File? then t[sh].mode else NewFileMode)]
            [sh := File(Text(docs.shellWrapper), ExecutableMode)]
  {
    var sh := py + [ShellWrapperName];
    WriteFileValue(t, sh, Text(docs.shellWrapper));
  }

  /** The three writes of `LauncherScripts`, for any trees with their effect. */
  lemma LauncherScriptsFrom(t: Tree, launcher: Tree, shell: Tree, u: Tree, py: Path, pl: Platform,
                            docs: Documents, m: nat, ms: nat, mb: nat)
    requires py + [LauncherName] != py + [ShellWrapperName] && py + [LauncherName] != py + [BatchWrapperName]
    requires py + [ShellWrapperName] != py + [BatchWrapperName]
    requires launcher == t[py + [LauncherName] := File(Text(docs.launcher), m)]
    requires IsUnix(pl) ==> shell == launcher[py + [ShellWrapperName] := File(Text(docs.shellWrapper), ms)]
                                              [py + [ShellWrapperName] := File(Text(docs.shellWrapper), ExecutableMode)]
    requires !IsUnix(pl) ==> shell == launcher
    requires pl == Windows ==> u == shell[py + [BatchWrapperName] := File(Text(docs.batchWrapper), mb)]
    requires pl != Windows ==> u == shell
    ensures IsFile(u, py + [LauncherName]) && u[py + [LauncherName]].content == Text(docs.launcher)
    ensures IsUnix(pl) ==> py + [ShellWrapperName] in u && u[py + [ShellWrapperName]] == File(Text(docs.shellWrapper), ExecutableMode)
    ensures !IsUnix(pl) ==> SameAt(t, u, py + [ShellWrapperName])
    ensures pl == Windows ==> IsFile(u, py + [BatchWrapperName]) && u[py + [BatchWrapperName]].content == Text(docs.batchWrapper)
    ensures pl != Windows ==> SameAt(t, u, py + [BatchWrapperName])
    ensures forall q :: q != py + [LauncherName] && q != py + [ShellWrapperName] && q != py + [BatchWrapperName] ==> SameAt(t, u, q)
  {
  }

  /** The output directory is not one of the sources the package copies, nor inside one. */
  predicate ApartFromSources(dir: Path) {
    dir != [] ==> dir[0] != BridgeName && dir[0] != RequirementsName && dir[0] != AssetsName && dir[0] != "dist"
  }

  /** The fallback folder `py` is not a source the fallback copies, nor inside one. */
  predicate FallbackApart(py: Path) {
    py != [] && py[0] != BridgeName && py[0] != RequirementsName && py[0] != AssetsName
  }

  lemma FallbackDirApart(dir: Path)
    requires ApartFromSources(dir)
    ensures FallbackApart(PythonDir(dir))
  {
    assert PythonDir(dir)[0] == if dir == [] then PythonDirName else dir[0];
  }

  /** Two entries of one directory with different names: neither is below the other. */
  lemma SiblingsApart(py: Path, a: string, b: string)
    requires a != b
    ensures py + [a] != py + [b]
    ensures !IsPrefix(py + [a], py + [b]) && !IsPrefix(py + [b], py + [a])
  {
    assert (py + [a])[|py|] == a;
    assert (py + [b])[|py|] == b;
  }

  /** A path that starts with a source's name is neither inside the fallback folder
      nor on the way to it. */
  lemma SourceOutsideFallback(py: Path, name: string, rel: Path)
    requires FallbackApart(py) && name in {BridgeName, RequirementsName, AssetsName}
    ensures !IsPrefix([name] + rel, py) && !IsPrefix(py, [name] + rel)
  {
    assert ([name] + rel)[0] == name;
  }

  /** `u` differs from `t` only on the way to `py` and inside it. */
  ghost predicate Confined(t: Tree, u: Tree, py: Path) {
    forall q :: !IsPrefix(q, py) && !IsPrefix(py, q) ==> SameAt(t, u, q)
  }

  lemma ConfinedTrans(t: Tree, u: Tree, v: Tree, py: Path)
    requires Confined(t, u, py) && Confined(u, v, py)
    ensures Confined(t, v, py)
  {
  }

  /** The sources lie outside a confined change of the fallback folder. */
  lemma SourcesKept(t: Tree, u: Tree, py: Path)
    requires FallbackApart(py) && Confined(t, u, py)
    ensures SameAt(t, u, BridgeSource) && SameAt(t, u, RequirementsSource)
    ensures forall rel :: SameAt(t, u, AssetsSource + rel)
  {
    SourceOutsideFallback(py, BridgeName, []);
    SourceOutsideFallback(py, RequirementsName, []);
    assert BridgeSource + [] == BridgeSource && RequirementsSource + [] == RequirementsSource;
    forall rel ensures SameAt(t, u, AssetsSource + rel) {
      SourceOutsideFallback(py, AssetsName, rel);
    }
  }

  /** `mkdir(parents=True)` of the fallback folder. */
  lemma MadeFallbackDir(t: Tree, py: Path)
    requires MakeDirs(t, py, true).Success? && py != []
    ensures var u := MakeDirs(t, py, true).value;
      && Confined(t, u, py) && IsDir(u, py)
      && forall x :: SameAt(t, u, py + [x])
  {
    MakeDirsEffect(t, py, true);
    MakeDirsMakes(t, py, true);
  }

  /** `copy2(src, py)` into the fallback folder, if `src` exists. */
  lemma CopiedIntoFallback(t: Tree, src: Path, py: Path)
    requires CopyIfPresent(t, src, py).Success? && IsDir(t, py) && src != []
    ensures var u := CopyIfPresent(t, src, py).value;
      && Confined(t, u, py) && IsDir(u, py)
      && (src in t ==> py + [Name(src)] in u && u[py + [Name(src)]] == t[src])
      && (src !in t ==> u == t)
      && forall x :: x != Name(src) ==> SameAt(t, u, py + [x])
  {
    forall x | x != Name(src) ensures py + [x] != py + [Name(src)] {
      SiblingsApart(py, x, Name(src));
    }
  }

  /** Both files copied into the fallback folder when they exist. */
  lemma FallbackFilesEffect(t: Tree, py: Path)
    requires FallbackFiles(t, py).Success? && IsDir(t, py) && FallbackApart(py)
    ensures var u := FallbackFiles(t, py).value;
      && Confined(t, u, py) && IsDir(u, py)
      && (BridgeSource in t ==> py + [BridgeName] in u && u[py + [BridgeName]] == t[BridgeSource])
      && (BridgeSource !in t ==> SameAt(t, u, py + [BridgeName]))
      && (RequirementsSource in t ==> py + [RequirementsName] in u && u[py + [RequirementsName]] == t[RequirementsSource])
      && (RequirementsSource !in t ==> SameAt(t, u, py + [RequirementsName]))
      && forall x :: x != BridgeName && x != RequirementsName ==> SameAt(t, u, py + [x])
  {
    var bridge := CopyIfPresent(t, BridgeSource, py).value;
    CopiedIntoFallback(t, BridgeSource, py);
    SourcesKept(t, bridge, py);
    CopiedIntoFallback(bridge, RequirementsSource, py);
    ConfinedTrans(t, bridge, FallbackFiles(t, py).value, py);
  }

  /** `copytree("assets", py / "assets", dirs_exist_ok=True)` */
  lemma CopiedAssetsTree(t: Tree, py: Path)
    requires CopyTree(t, AssetsSource, py + [AssetsName], true).Success? && IsDir(t, py)
    requires !IsPrefix(py, AssetsSource) && !IsPrefix(AssetsSource, py)
    ensures var u := CopyTree(t, AssetsSource, py + [AssetsName], true).value;
      && Confined(t, u, py) && IsDir(u, py)
      && (forall rel :: AssetsSource + rel in t ==>
            py + [AssetsName] + rel in u && u[py + [AssetsName] + rel] == t[AssetsSource + rel])
      && forall x :: x != AssetsName ==> SameAt(t, u, py + [x])
  {
    var dst := py + [AssetsName];
    CopyTreeFrame(t, AssetsSource, dst, true);
    CopyTreeCopies(t, AssetsSource, dst, true);
    var u := CopyTree(t, AssetsSource, dst, true).value;
    forall q | !IsPrefix(q, py) && !IsPrefix(py, q) ensures SameAt(t, u, q) {
      assert !IsPrefix(q, dst) && !IsPrefix(dst, q);
    }
    forall x | x != AssetsName ensures SameAt(t, u, py + [x]) {
      SiblingsApart(py, x, AssetsName);
    }
    assert SameAt(t, u, py) by {
      assert !IsPrefix(dst, py);
    }
  }

  /** `assets` copied into the fallback folder when it exists. */
  lemma CopiedAssets(t: Tree, py: Path)
    requires AssetsCopied(t, py).Success? && IsDir(t, py) && FallbackApart(py)
    ensures var u := AssetsCopied(t, py).value;
      && Confined(t, u, py) && IsDir(u, py)
      && (AssetsSource in t ==> forall rel :: AssetsSource + rel in t ==>
            py + [AssetsName] + rel in u && u[py + [AssetsName] + rel] == t[AssetsSource + rel])
      && (AssetsSource !in t ==> u == t)
      && forall x :: x != AssetsName ==> SameAt(t, u, py + [x])
  {
    if AssetsSource in t {
      SourceOutsideFallback(py, AssetsName, []);
      assert AssetsSource + [] == AssetsSource;
      CopiedAssetsTree(t, py);
    }
  }

  /** The copied sources are in the fallback folder exactly when they exist; a missing one
      leaves its place as it was, and the launcher and README places are not touched. */
  lemma FallbackSourcesEffect(t: Tree, dir: Path)
    requires ApartFromSources(dir) && FallbackSources(t, dir).Success?
    ensures var u := FallbackSources(t, dir).value; var py := PythonDir(dir);
      && Confined(t, u, py) && IsDir(u, py)
      && (BridgeSource in t ==> py + [BridgeName] in u && u[py + [BridgeName]] == t[BridgeSource])
      && (BridgeSource !in t ==> SameAt(t, u, py + [BridgeName]))
      && (RequirementsSource in t ==> py + [RequirementsName] in u && u[py + [RequirementsName]] == t[RequirementsSource])
      && (RequirementsSource !in t ==> SameAt(t, u, py + [RequirementsName]))
      && (AssetsSource in t ==> forall rel :: AssetsSource + rel in t ==>
            py + [AssetsName] + rel in u && u[py + [AssetsName] + rel] == t[AssetsSource + rel])
      && (AssetsSource !in t ==> SameAt(t, u, py + [AssetsName]))
      && forall x :: x !in {BridgeName, RequirementsName, AssetsName} ==> SameAt(t, u, py + [x])
  {
    var py := PythonDir(dir);
    FallbackDirApart(dir);
    var made := MakeDirs(t, py, true).value;
    MadeFallbackDir(t, py);
    SourcesKept(t, made, py);
    var files := FallbackFiles(made, py).value;
    FallbackFilesEffect(made, py);
    SourcesKept(made, files, py);
    CopiedAssets(files, py);
    var u := AssetsCopied(files, py).value;
    assert FallbackSources(t, dir) == Success(u);
    FallbackSourcesFrom(t, made, files, u, py);
  }

  /** The three steps of `FallbackSources`, each with the effect its lemma states,
      compose to the effect `FallbackSourcesEffect` states. */
  lemma FallbackSourcesFrom(t: Tree, made: Tree, files: Tree, u: Tree, py: Path)
    requires Confined(t, made, py) && forall x :: SameAt(t, made, py + [x])
    requires SameAt(t, made, BridgeSource) && SameAt(t, made, RequirementsSource)
    requires forall rel :: SameAt(t, made, AssetsSource + rel)
    requires Confined(made, files, py)
    requires BridgeSource in made ==> py + [BridgeName] in files && files[py + [BridgeName]] == made[BridgeSource]
    requires BridgeSource !in made ==> SameAt(made, files, py + [BridgeName])
    requires RequirementsSource in made ==>
      py + [RequirementsName] in files && files[py + [RequirementsName]] == made[RequirementsSource]
    requires RequirementsSource !in made ==> SameAt(made, files, py + [RequirementsName])
    requires forall x :: x != BridgeName && x != RequirementsName ==> SameAt(made, files, py + [x])
    requires forall rel :: SameAt(made, files, AssetsSource + rel)
    requires Confined(files, u, py) && IsDir(u, py)
    requires AssetsSource in files ==> forall rel :: AssetsSource + rel in files ==>
      py + [AssetsName] + rel in u && u[py + [AssetsName] + rel] == files[AssetsSource + rel]
    requires AssetsSource !in files ==> u == files
    requires forall x :: x != AssetsName ==> SameAt(files, u, py + [x])
    ensures && Confined(t, u, py) && IsDir(u, py)
      && (BridgeSource in t ==> py + [BridgeName] in u && u[py + [BridgeName]] == t[BridgeSource])
      && (BridgeSource !in t ==> SameAt(t, u, py + [BridgeName]))
      && (RequirementsSource in t ==> py + [RequirementsName] in u && u[py + [RequirementsName]] == t[RequirementsSource])
      && (RequirementsSource !in t ==> SameAt(t, u, py + [RequirementsName]))
      && (AssetsSource in t ==> forall rel :: AssetsSource + rel in t ==>
            py + [AssetsName] + rel in u && u[py + [AssetsName] + rel] == t[AssetsSource + rel])
      && (AssetsSource !in t ==> SameAt(t, u, py + [AssetsName]))
      && forall x :: x !in {BridgeName, RequirementsName, AssetsName} ==> SameAt(t, u, py + [x])
  {
    ConfinedTrans(t, made, files, py);
    ConfinedTrans(t, files, u, py);
    assert SameAt(files, u, py + [BridgeName]) && SameAt(files, u, py + [RequirementsName]);
    assert AssetsSource + [] == AssetsSource;
    assert SameAt(t, made, AssetsSource + []) && SameAt(made, files, AssetsSource + []);
    if AssetsSource in t {
      forall rel | AssetsSource + rel in t
        ensures py + [AssetsName] + rel in u && u[py + [AssetsName] + rel] == t[AssetsSource + rel]
      {
        assert SameAt(t, made, AssetsSource + rel) && SameAt(made, files, AssetsSource + rel);
      }
    } else {
      assert SameAt(made, files, py + [AssetsName]);
    }
  }

  /** An entry below one child of a directory is not another child. */
  lemma BelowSiblingApart(py: Path, a: string, b: string, rel: Path)
    requires a != b
    ensures py + [a] + rel != py + [b]
  {
    assert (py + [a] + rel)[|py|] == a;
    assert (py + [b])[|py|] == b;
  }

  /** The paths `FallbackDocs` may write. */
  function DocPaths(py: Path): set<Path> {
    {py + [LauncherName], py + [ShellWrapperName], py + [BatchWrapperName], py + [ReadmeName]}
  }

  /** The scripts as `LauncherScriptsEffect` says, `README.md` with the given text, and
      nothing else changed. */
  lemma FallbackDocsEffect(t: Tree, py: Path, pl: Platform, docs: Documents)
    requires FallbackDocs(t, py, pl, docs).Success?
    ensures var u := FallbackDocs(t, py, pl, docs).value;
      && IsFile(u, py + [LauncherName]) && u[py + [LauncherName]].content == Text(docs.launcher)
      && IsFile(u, py + [ReadmeName]) && u[py + [ReadmeName]].content == Text(docs.pythonReadme)
      && (IsUnix(pl) ==> py + [ShellWrapperName] in u && u[py + [ShellWrapperName]] == File(Text(docs.shellWrapper), ExecutableMode))
      && (!IsUnix(pl) ==> SameAt(t, u, py + [ShellWrapperName]))
      && (pl == Windows ==> IsFile(u, py + [BatchWrapperName]) && u[py + [BatchWrapperName]].content == Text(docs.batchWrapper))
      && (pl != Windows ==> SameAt(t, u, py + [BatchWrapperName]))
      && forall q :: q !in DocPaths(py) ==> SameAt(t, u, q)
  {
    LauncherScriptsEffect(t, py, pl, docs);
    var s := LauncherScripts(t, py, pl, docs).value;
    var r := py + [ReadmeName];
    var n := File(Text(docs.pythonReadme), if r in s && s[r].File? then s[r].mode else NewFileMode);
    assert WriteText(s, r, docs.pythonReadme).Success?;
    WriteFileValue(s, r, Text(docs.pythonReadme));
    SiblingsApart(py, ReadmeName, LauncherName);
    SiblingsApart(py, ReadmeName, ShellWrapperName);
    SiblingsApart(py, ReadmeName, BatchWrapperName);
    FallbackDocsFrom(t, s, py, pl, docs, n);
  }

  /** The README written over the effect of `LauncherScripts`. */
  lemma FallbackDocsFrom(t: Tree, s: Tree, py: Path, pl: Platform, docs: Documents, n: Node)
    requires IsFile(s, py + [LauncherName]) && s[py + [LauncherName]].content == Text(docs.launcher)
    requires IsUnix(pl) ==>
      py + [ShellWrapperName] in s && s[py + [ShellWrapperName]] == File(Text(docs.shellWrapper), ExecutableMode)
    requires !IsUnix(pl) ==> SameAt(t, s, py + [ShellWrapperName])
    requires pl == Windows ==>
      IsFile(s, py + [BatchWrapperName]) && s[py + [BatchWrapperName]].content == Text(docs.batchWrapper)
    requires pl != Windows ==> SameAt(t, s, py + [BatchWrapperName])
    requires forall q :: q != py + [LauncherName] && q != py + [ShellWrapperName] && q != py + [BatchWrapperName] ==>
      SameAt(t, s, q)
    requires py + [ReadmeName] != py + [LauncherName] && py + [ReadmeName] != py + [ShellWrapperName]
    requires py + [ReadmeName] != py + [BatchWrapperName]
    requires n.File? && n.content == Text(docs.pythonReadme)
    ensures var u := s[py + [ReadmeName] := n];
      && IsFile(u, py + [LauncherName]) && u[py + [LauncherName]].content == Text(docs.launcher)
      && IsFile(u, py + [ReadmeName]) && u[py + [ReadmeName]].content == Text(docs.pythonReadme)
      && (IsUnix(pl) ==> py + [ShellWrapperName] in u && u[py + [ShellWrapperName]] == File(Text(docs.shellWrapper), ExecutableMode))
      && (!IsUnix(pl) ==> SameAt(t, u, py + [ShellWrapperName]))
      && (pl == Windows ==> IsFile(u, py + [BatchWrapperName]) && u[py + [BatchWrapperName]].content == Text(docs.batchWrapper))
      && (pl != Windows ==> SameAt(t, u, py + [BatchWrapperName]))
      && forall q :: q !in DocPaths(py) ==> SameAt(t, u, q)
  {
    forall q | q !in DocPaths(py) ensures SameAt(t, s[py + [ReadmeName] := n], q) {
      assert q != py + [LauncherName] && q != py + [ShellWrapperName];
      assert q != py + [BatchWrapperName] && q != py + [ReadmeName];
      assert SameAt(t, s, q);
    }
  }

  /** The fallback folder holds `launcher.py` and `README.md` with the given texts and
      the wrapper of the platform. */
  lemma PythonFallbackDocs(t: Tree, dir: Path, pl: Platform, docs: Documents)
    requires ApartFromSources(dir) && PythonFallback(t, dir, pl, docs).Success?
    ensures var u := PythonFallback(t, dir, pl, docs).value; var py := PythonDir(dir);
      && IsFile(u, py + [LauncherName]) && u[py + [LauncherName]].content == Text(docs.launcher)
      && IsFile(u, py + [ReadmeName]) && u[py + [ReadmeName]].content == Text(docs.pythonReadme)
      && (IsUnix(pl) ==> py + [ShellWrapperName] in u && u[py + [ShellWrapperName]] == File(Text(docs.shellWrapper), ExecutableMode))
      && (!IsUnix(pl) ==> SameAt(t, u, py + [ShellWrapperName]))
      && (pl == Windows ==> IsFile(u, py + [BatchWrapperName]) && u[py + [BatchWrapperName]].content == Text(docs.batchWrapper))
      && (pl != Windows ==> SameAt(t, u, py + [BatchWrapperName]))
  {
    FallbackSourcesEffect(t, dir);
    FallbackDocsEffect(FallbackSources(t, dir).value, PythonDir(dir), pl, docs);
  }

  /** A copied source's place is not one `FallbackDocs` writes. */
  lemma SourcePlacesApart(py: Path, rel: Path)
    ensures py + [BridgeName] !in DocPaths(py) && py + [RequirementsName] !in DocPaths(py)
    ensures py + [AssetsName] + rel !in DocPaths(py)
  {
    forall other | other in {LauncherName, ShellWrapperName, BatchWrapperName, ReadmeName}
      ensures py + [BridgeName] != py + [other] && py + [RequirementsName] != py + [other]
      ensures py + [AssetsName] + rel != py + [other]
    {
      SiblingsApart(py, BridgeName, other);
      SiblingsApart(py, RequirementsName, other);
      BelowSiblingApart(py, AssetsName, other, rel);
    }
  }

  /** What the sources step leaves in the fallback folder survives a change confined to
      `DocPaths(py)`. */
  lemma SourcesSurviveDocs(t: Tree, s: Tree, u: Tree, py: Path)
    requires Confined(t, s, py) && IsDir(s, py)
    requires BridgeSource in t ==> py + [BridgeName] in s && s[py + [BridgeName]] == t[BridgeSource]
    requires BridgeSource !in t ==> SameAt(t, s, py + [BridgeName])
    requires RequirementsSource in t ==> py + [RequirementsName] in s && s[py + [RequirementsName]] == t[RequirementsSource]
    requires RequirementsSource !in t ==> SameAt(t, s, py + [RequirementsName])
    requires AssetsSource in t ==> forall rel :: AssetsSource + rel in t ==>
               py + [AssetsName] + rel in s && s[py + [AssetsName] + rel] == t[AssetsSource + rel]
    requires AssetsSource !in t ==> SameAt(t, s, py + [AssetsName])
    requires forall q :: q !in DocPaths(py) ==> SameAt(s, u, q)
    ensures Confined(t, u, py) && IsDir(u, py)
    ensures BridgeSource in t ==> py + [BridgeName] in u && u[py + [BridgeName]] == t[BridgeSource]
    ensures BridgeSource !in t ==> SameAt(t, u, py + [BridgeName])
    ensures RequirementsSource in t ==> py + [RequirementsName] in u && u[py + [RequirementsName]] == t[RequirementsSource]
    ensures RequirementsSource !in t ==> SameAt(t, u, py + [RequirementsName])
    ensures AssetsSource in t ==> forall rel :: AssetsSource + rel in t ==>
              py + [AssetsName] + rel in u && u[py + [AssetsName] + rel] == t[AssetsSource + rel]
    ensures AssetsSource !in t ==> SameAt(t, u, py + [AssetsName])
  {
    SourcePlacesApart(py, []);
    assert py + [AssetsName] + [] == py + [AssetsName];
    forall rel ensures py + [AssetsName] + rel !in DocPaths(py) {
      SourcePlacesApart(py, rel);
    }
    assert py !in DocPaths(py) by {
      assert forall x :: |py + [x]| != |py|;
    }
    forall q | !IsPrefix(q, py) && !IsPrefix(py, q) ensures SameAt(s, u, q) {
      assert IsPrefix(py, py + [LauncherName]) && IsPrefix(py, py + [ShellWrapperName]);
      assert IsPrefix(py, py + [BatchWrapperName]) && IsPrefix(py, py + [ReadmeName]);
    }
    ConfinedTrans(t, s, u, py);
  }

  /** The fallback folder holds the sources that existed; nothing outside it, or on the
      way to it, changes. */
  lemma PythonFallbackSources(t: Tree, dir: Path, pl: Platform, docs: Documents)
    requires ApartFromSources(dir) && PythonFallback(t, dir, pl, docs).Success?
    ensures var u := PythonFallback(t, dir, pl, docs).value; var py := PythonDir(dir);
      && Confined(t, u, py) && IsDir(u, py)
      && (BridgeSource in t ==> py + [BridgeName] in u && u[py + [BridgeName]] == t[BridgeSource])
      && (BridgeSource !in t ==> SameAt(t, u, py + [BridgeName]))
      && (RequirementsSource in t ==> py + [RequirementsName] in u && u[py + [RequirementsName]] == t[RequirementsSource])
      && (RequirementsSource !in t ==> SameAt(t, u, py + [RequirementsName]))
      && (AssetsSource in t ==> forall rel :: AssetsSource + rel in t ==>
            py + [AssetsName] + rel in u && u[py + [AssetsName] + rel] == t[AssetsSource + rel])
      && (AssetsSource !in t ==> SameAt(t, u, py + [AssetsName]))
  {
    var py := PythonDir(dir);
    var sources := FallbackSources(t, dir).value;
    FallbackSourcesEffect(t, dir);
    FallbackDocsEffect(sources, py, pl, docs);
    SourcesSurviveDocs(t, sources, FallbackDocs(sources, py, pl, docs).value, py);
  }

  /** `copy2` of the built executable into the platform directory, then `chmod 0o755`
      except on Windows; without a built executable nothing changes. */
  lemma ExecutableCopiedEffect(t: Tree, dir: Path, pl: Platform)
    requires ExecutableCopied(t, dir, pl).Success? && IsDir(t, dir)
    ensures var u := ExecutableCopied(t, dir, pl).value; var exe := BuiltExecutable(pl);
      && (exe in t ==> u == t[dir + [ExecutableName(pl)] :=
            File(t[exe].content, if pl != Windows then ExecutableMode else t[exe].mode)])
      && (exe !in t ==> u == t)
  {
    var exe := BuiltExecutable(pl);
    if exe in t {
      var target := dir + [ExecutableName(pl)];
      assert CopyTarget(t, exe, dir) == target;
      var copied := t[target := t[exe]];
      assert CopyFile(t, exe, dir) == Success(copied);
      assert t[exe].File?;
      if pl != Windows {
        var u := copied[target := File(t[exe].content, ExecutableMode)];
        assert Chmod(copied, target, ExecutableMode) == Success(u);
        assert u == t[target := File(t[exe].content, ExecutableMode)];
      }
    }
  }

  /** Nothing the assembly writes is in `dist/`. */
  lemma BuildOutsideOutput(dir: Path, pl: Platform)
    requires ApartFromSources(dir) && dir != []
    ensures !IsPrefix(BuiltExecutable(pl), dir) && !IsPrefix(dir, BuiltExecutable(pl))
    ensures !IsPrefix(BuiltExecutable(pl), PythonDir(dir)) && !IsPrefix(PythonDir(dir), BuiltExecutable(pl))
  {
    assert BuiltExecutable(pl)[0] == "dist";
    assert PythonDir(dir)[0] == dir[0];
  }

  // ---------------------------------------------------------------------------
  // The package on a fresh platform directory


  /** A change confined to a child of `dir` is confined to `dir`. */
  lemma ConfinedWiden(t: Tree, u: Tree, dir: Path, x: string)
    requires Confined(t, u, dir + [x])
    ensures Confined(t, u, dir)
  {
    forall q | !IsPrefix(q, dir) && !IsPrefix(dir, q) ensures SameAt(t, u, q) {
      assert !IsPrefix(q, dir + [x]) && !IsPrefix(dir + [x], q);
    }
  }

  /** What `package_platform` leaves in the Python fallback folder `py`, in terms of
      the tree `t` it started from, when `py` was new. */
  ghost predicate FallbackLayout(t: Tree, u: Tree, py: Path, pl: Platform, docs: Documents) {
    && IsDir(u, py)
    && IsFile(u, py + [LauncherName]) && u[py + [LauncherName]].content == Text(docs.launcher)
    && IsFile(u, py + [ReadmeName]) && u[py + [ReadmeName]].content == Text(docs.pythonReadme)
    && (py + [ShellWrapperName] in u <==> IsUnix(pl))
    && (IsUnix(pl) ==> py + [ShellWrapperName] in u && u[py + [ShellWrapperName]] == File(Text(docs.shellWrapper), ExecutableMode))
    && (py + [BatchWrapperName] in u <==> pl == Windows)
    && (pl == Windows ==> IsFile(u, py + [BatchWrapperName]) && u[py + [BatchWrapperName]].content == Text(docs.batchWrapper))
    && (py + [BridgeName] in u <==> BridgeSource in t)
    && (BridgeSource in t ==> u[py + [BridgeName]] == t[BridgeSource])
    && (py + [RequirementsName] in u <==> RequirementsSource in t)
    && (RequirementsSource in t ==> u[py + [RequirementsName]] == t[RequirementsSource])
    && (py + [AssetsName] in u <==> AssetsSource in t)
    && (AssetsSource in t ==> forall rel :: AssetsSource + rel in t ==>
          py + [AssetsName] + rel in u && u[py + [AssetsName] + rel] == t[AssetsSource + rel])
  }

  /** Writing one entry outside `py` keeps the fallback layout. */
  lemma FallbackLayoutKept(t: Tree, f: Tree, py: Path, pl: Platform, docs: Documents, k: Path, n: Node)
    requires FallbackLayout(t, f, py, pl, docs) && !IsPrefix(py, k)
    ensures FallbackLayout(t, f[k := n], py, pl, docs)
  {
    var u := f[k := n];
    forall x ensures SameAt(f, u, py + [x]) {
      assert IsPrefix(py, py + [x]);
    }
    forall rel ensures SameAt(f, u, py + [AssetsName] + rel) {
      assert IsPrefix(py, py + [AssetsName] + rel);
    }
    assert SameAt(f, u, py) by {
      assert IsPrefix(py, py);
    }
  }

  /** The facts of `PythonFallbackDocs` and `PythonFallbackSources` about a step from
      `e` to `f`, where `py` had no entries, give the fallback layout. */
  lemma FallbackLayoutFrom(t: Tree, e: Tree, f: Tree, py: Path, pl: Platform, docs: Documents)
    requires forall x :: py + [x] !in e
    requires SameAt(t, e, BridgeSource) && SameAt(t, e, RequirementsSource)
    requires forall rel :: SameAt(t, e, AssetsSource + rel)
    requires IsFile(f, py + [LauncherName]) && f[py + [LauncherName]].content == Text(docs.launcher)
    requires IsFile(f, py + [ReadmeName]) && f[py + [ReadmeName]].content == Text(docs.pythonReadme)
    requires IsUnix(pl) ==> py + [ShellWrapperName] in f && f[py + [ShellWrapperName]] == File(Text(docs.shellWrapper), ExecutableMode)
    requires !IsUnix(pl) ==> SameAt(e, f, py + [ShellWrapperName])
    requires pl == Windows ==> IsFile(f, py + [BatchWrapperName]) && f[py + [BatchWrapperName]].content == Text(docs.batchWrapper)
    requires pl != Windows ==> SameAt(e, f, py + [BatchWrapperName])
    requires IsDir(f, py)
    requires BridgeSource in e ==> py + [BridgeName] in f && f[py + [BridgeName]] == e[BridgeSource]
    requires BridgeSource !in e ==> SameAt(e, f, py + [BridgeName])
    requires RequirementsSource in e ==> py + [RequirementsName] in f && f[py + [RequirementsName]] == e[RequirementsSource]
    requires RequirementsSource !in e ==> SameAt(e, f, py + [RequirementsName])
    requires AssetsSource in e ==> forall rel :: AssetsSource + rel in e ==>
               py + [AssetsName] + rel in f && f[py + [AssetsName] + rel] == e[AssetsSource + rel]
    requires AssetsSource !in e ==> SameAt(e, f, py + [AssetsName])
    ensures FallbackLayout(t, f, py, pl, docs)
  {
    assert AssetsSource + [] == AssetsSource;
    assert py + [AssetsName] + [] == py + [AssetsName];
  }

  /** The Python fallback made where nothing was yet. */
  lemma FallbackInFresh(t: Tree, e: Tree, dir: Path, pl: Platform, docs: Documents)
    requires ApartFromSources(dir) && PythonFallback(e, dir, pl, docs).Success?
    requires forall x :: PythonDir(dir) + [x] !in e
    requires SameAt(t, e, BridgeSource) && SameAt(t, e, RequirementsSource)
    requires forall rel :: SameAt(t, e, AssetsSource + rel)
    ensures var f := PythonFallback(e, dir, pl, docs).value;
      FallbackLayout(t, f, PythonDir(dir), pl, docs) && Confined(e, f, PythonDir(dir))
  {
    PythonFallbackDocs(e, dir, pl, docs);
    PythonFallbackSources(e, dir, pl, docs);
    FallbackLayoutFrom(t, e, PythonFallback(e, dir, pl, docs).value, PythonDir(dir), pl, docs);
  }

  /** `mkdir(parents=True, exist_ok=True)` of a fresh platform directory. */
  lemma MadePlatformDir(t: Tree, dir: Path)
    requires MakeDirs(t, dir, true).Success? && dir != [] && FreshBelow(t, dir)
    ensures var m := MakeDirs(t, dir, true).value;
      && IsDir(m, dir) && Confined(t, m, dir)
      && forall q :: IsPrefix(dir, q) && q != dir ==> q !in m
  {
    MakeDirsEffect(t, dir, true);
    MakeDirsMakes(t, dir, true);
    var m := MakeDirs(t, dir, true).value;
    forall q | IsPrefix(dir, q) && q != dir ensures q !in m {
      assert !IsPrefix(q, dir);
    }
  }

  /** The executable copied into a platform directory that holds nothing else. */
  lemma ExecutableInFresh(t: Tree, m: Tree, dir: Path, pl: Platform)
    requires ExecutableCopied(m, dir, pl).Success? && IsDir(m, dir)
    requires ApartFromSources(dir) && dir != [] && Confined(t, m, dir)
    requires forall q :: IsPrefix(dir, q) && q != dir ==> q !in m
    ensures var e := ExecutableCopied(m, dir, pl).value; var exe := BuiltExecutable(pl);
      && IsDir(e, dir) && Confined(t, e, dir)
      && (dir + [ExecutableName(pl)] in e <==> exe in t)
      && (exe in t ==> IsFile(t, exe))
      && (exe in t ==>
            e[dir + [ExecutableName(pl)]] == File(t[exe].content, if pl != Windows then ExecutableMode else t[exe].mode))
      && forall x :: PythonDir(dir) + [x] !in e
  {
    var exe := BuiltExecutable(pl);
    BuildOutsideOutput(dir, pl);
    assert SameAt(t, m, exe);
    ExecutableCopiedEffect(m, dir, pl);
    forall x ensures PythonDir(dir) + [x] !in m && PythonDir(dir) + [x] != dir + [ExecutableName(pl)] {
      assert IsPrefix(dir, PythonDir(dir) + [x]);
    }
    assert IsPrefix(dir, dir + [ExecutableName(pl)]);
  }

  /** The last step of `package_platform`, the platform README, on top of the facts
      about the steps before it. */
  lemma PackageLayoutFrom(t: Tree, e: Tree, f: Tree, dir: Path, pl: Platform, docs: Documents, readme: Node)
    requires Confined(t, e, dir) && Confined(e, f, PythonDir(dir))
    requires dir + [ExecutableName(pl)] in e <==> BuiltExecutable(pl) in t
    requires BuiltExecutable(pl) in t ==> IsFile(t, BuiltExecutable(pl))
    requires BuiltExecutable(pl) in t ==>
      e[dir + [ExecutableName(pl)]] == File(t[BuiltExecutable(pl)].content,
        if pl != Windows then ExecutableMode else t[BuiltExecutable(pl)].mode)
    requires FallbackLayout(t, f, PythonDir(dir), pl, docs)
    requires readme.File? && readme.content == Text(docs.platformReadme)
    ensures var u := f[dir + [ReadmeName] := readme]; var exe := BuiltExecutable(pl);
      && Confined(t, u, dir)
      && IsFile(u, dir + [ReadmeName]) && u[dir + [ReadmeName]].content == Text(docs.platformReadme)
      && (dir + [ExecutableName(pl)] in u <==> exe in t)
      && (exe in t ==>
            u[dir + [ExecutableName(pl)]] == File(t[exe].content, if pl != Windows then ExecutableMode else t[exe].mode))
      && FallbackLayout(t, u, PythonDir(dir), pl, docs)
  {
    var py := PythonDir(dir);
    var k := dir + [ReadmeName];
    SiblingsApart(dir, ReadmeName, PythonDirName);
    SiblingsApart(dir, ExecutableName(pl), PythonDirName);
    SiblingsApart(dir, ExecutableName(pl), ReadmeName);
    FallbackLayoutKept(t, f, py, pl, docs, k, readme);
    ConfinedWiden(e, f, dir, PythonDirName);
    ConfinedTrans(t, e, f, dir);
    var u := f[k := readme];
    forall q | !IsPrefix(q, dir) && !IsPrefix(dir, q) ensures SameAt(t, u, q) {
      assert q != k by {
        assert IsPrefix(dir, k);
      }
    }
  }

  /** `package_platform` on a platform directory with nothing in it yet (in a
      well-formed tree: one that does not exist, `FreshFromWellFormed`): `README.md`
      holds the platform README; the executable is there exactly when the build left
      one, with mode 0o755 except on Windows; the Python fallback is laid out as
      `FallbackLayout` says; and nothing outside the platform directory and its parents
      changes. */
  lemma PackageLayout(t: Tree, out: Path, pl: Platform, docs: Documents)
    requires FreshBelow(t, PlatformDir(out, pl)) && ApartFromSources(PlatformDir(out, pl))
    requires Assembled(t, out, pl, docs).Success?
    ensures var u := Assembled(t, out, pl, docs).value; var dir := PlatformDir(out, pl);
      var exe := BuiltExecutable(pl);
      && Confined(t, u, dir)
      && IsFile(u, dir + [ReadmeName]) && u[dir + [ReadmeName]].content == Text(docs.platformReadme)
      && (dir + [ExecutableName(pl)] in u <==> exe in t)
      && (exe in t ==>
            u[dir + [ExecutableName(pl)]] == File(t[exe].content, if pl != Windows then ExecutableMode else t[exe].mode))
      && FallbackLayout(t, u, PythonDir(dir), pl, docs)
  {
    var dir := PlatformDir(out, pl);
    var m := MakeDirs(t, dir, true).value;
    MadePlatformDir(t, dir);
    var e := ExecutableCopied(m, dir, pl).value;
    ExecutableInFresh(t, m, dir, pl);
    FallbackDirApart(dir);
    SourcesKept(t, e, dir);
    var f := PythonFallback(e, dir, pl, docs).value;
    FallbackInFresh(t, e, dir, pl, docs);
    var readme := dir + [ReadmeName];
    var u := Assembled(t, out, pl, docs).value;
    assert u == f[readme := u[readme]];
    PackageLayoutFrom(t, e, f, dir, pl, docs, u[readme]);
  }

  /** The assembly warns exactly when the build left no executable. */
  lemma AssemblyWarnsOfMissingExecutable(t: Tree, out: Path, pl: Platform)
    requires ApartFromSources(PlatformDir(out, pl)) && MakeDirs(t, PlatformDir(out, pl), true).Success?
    ensures AssemblyWarnings(t, out, pl) ==
      if BuiltExecutable(pl) in t then [] else [ExecutableNotFound(BuiltExecutable(pl))]
  {
    var dir := PlatformDir(out, pl);
    MakeDirsEffect(t, dir, true);
    BuildOutsideOutput(dir, pl);
  }

  // ---------------------------------------------------------------------------
  // The assembly keeps the tree well-formed

  lemma ExecutableCopiedWellFormed(t: Tree, dir: Path, pl: Platform)
    requires WellFormed(t) && ExecutableCopied(t, dir, pl).Success?
    ensures WellFormed(ExecutableCopied(t, dir, pl).value)
  {
    if BuiltExecutable(pl) in t {
      CopyFileWellFormed(t, BuiltExecutable(pl), dir);
      var copied := CopyFile(t, BuiltExecutable(pl), dir).value;
      if pl != Windows {
        ChmodWellFormed(copied, dir + [ExecutableName(pl)], ExecutableMode);
      }
    }
  }

  lemma FallbackSourcesWellFormed(t: Tree, dir: Path)
    requires WellFormed(t) && FallbackSources(t, dir).Success?
    ensures WellFormed(FallbackSources(t, dir).value)
  {
    var py := PythonDir(dir);
    MakeDirsWellFormed(t, py, true);
    var made := MakeDirs(t, py, true).value;
    var bridge := CopyIfPresent(made, BridgeSource, py).value;
    if BridgeSource in made {
      CopyFileWellFormed(made, BridgeSource, py);
    }
    var files := FallbackFiles(made, py).value;
    if RequirementsSource in bridge {
      CopyFileWellFormed(bridge, RequirementsSource, py);
    }
    if AssetsSource in files {
      CopyTreeWellFormed(files, AssetsSource, py + [AssetsName], true);
    }
  }

  lemma FallbackDocsWellFormed(t: Tree, py: Path, pl: Platform, docs: Documents)
    requires WellFormed(t) && FallbackDocs(t, py, pl, docs).Success?
    ensures WellFormed(FallbackDocs(t, py, pl, docs).value)
  {
    var launcher := WriteText(t, py + [LauncherName], docs.launcher).value;
    WriteFileWellFormed(t, py + [LauncherName], Text(docs.launcher));
    var shell := launcher;
    if IsUnix(pl) {
      WriteFileWellFormed(launcher, py + [ShellWrapperName], Text(docs.shellWrapper));
      var written := WriteText(launcher, py + [ShellWrapperName], docs.shellWrapper).value;
      ChmodWellFormed(written, py + [ShellWrapperName], ExecutableMode);
      shell := ShellWrapperWritten(launcher, py, docs).value;
    }
    var scripts := shell;
    if pl == Windows {
      WriteFileWellFormed(shell, py + [BatchWrapperName], Text(docs.batchWrapper));
      scripts := WriteText(shell, py + [BatchWrapperName], docs.batchWrapper).value;
    }
    assert scripts == LauncherScripts(t, py, pl, docs).value;
    WriteFileWellFormed(scripts, py + [ReadmeName], Text(docs.pythonReadme));
  }

  /** Assembling a package keeps a well-formed tree well-formed. */
  lemma AssembledWellFormed(t: Tree, out: Path, pl: Platform, docs: Documents)
    requires WellFormed(t) && Assembled(t, out, pl, docs).Success?
    ensures WellFormed(Assembled(t, out, pl, docs).value)
  {
    var dir := PlatformDir(out, pl);
    MakeDirsWellFormed(t, dir, true);
    var made := MakeDirs(t, dir, true).value;
    ExecutableCopiedWellFormed(made, dir, pl);
    var withExecutable := ExecutableCopied(made, dir, pl).value;
    FallbackSourcesWellFormed(withExecutable, dir);
    FallbackDocsWellFormed(FallbackSources(withExecutable, dir).value, PythonDir(dir), pl, docs);
    var withFallback := PythonFallback(withExecutable, dir, pl, docs).value;
    WriteFileWellFormed(withFallback, dir + [ReadmeName], Text(docs.platformReadme));
  }

  /** After a successful assembly the platform directory is a directory. */
  lemma AssembledHasDir(t: Tree, out: Path, pl: Platform, docs: Documents)
    requires Assembled(t, out, pl, docs).Success?
    ensures IsDir(Assembled(t, out, pl, docs).value, PlatformDir(out, pl))
  {
    var dir := PlatformDir(out, pl);
    var made := MakeDirs(t, dir, true).value;
    var e := ExecutableCopied(made, dir, pl).value;
    var f := PythonFallback(e, dir, pl, docs).value;
    var readme := dir + [ReadmeName];
    assert Parent(readme) == dir && |readme| > 1;
    assert IsDir(f, dir);
  }

  // ---------------------------------------------------------------------------
  // When the assembly gets through

  /** The sources have the kind the copy calls expect: the built executable, the bridge
      source and `requirements.txt` are files, `assets` is a folder. */
  predicate SourcesOfKind(t: Tree, pl: Platform) {
    && (BuiltExecutable(pl) in t ==> IsFile(t, BuiltExecutable(pl)))
    && (BridgeSource in t ==> IsFile(t, BridgeSource))
    && (RequirementsSource in t ==> IsFile(t, RequirementsSource))
    && (AssetsSource in t ==> IsDir(t, AssetsSource))
  }

  /** In a well-formed tree every nonempty prefix of a directory is a directory. */
  lemma PrefixesAreDirs(t: Tree, p: Path)
    requires WellFormed(t) && IsDir(t, p)
    ensures forall k :: 1 <= k <= |p| ==> IsDir(t, p[..k])
  {
    forall k | 1 <= k < |p| ensures IsDir(t, p[..k]) {
      AncestorIsDir(t, p[..k], p);
    }
    assert p[..|p|] == p;
  }

  /** `mkdir(parents=True, exist_ok=True)` of a new entry in a directory succeeds. */
  lemma MakeChildDirs(t: Tree, dir: Path, x: string)
    requires WellFormed(t) && IsDir(t, dir) && dir + [x] !in t
    ensures MakeDirs(t, dir + [x], true).Success?
  {
    var p := dir + [x];
    PrefixesAreDirs(t, dir);
    forall k | 1 <= k <= |p| ensures !IsFile(t, p[..k]) {
      if k <= |dir| {
        assert p[..k] == dir[..k];
      } else {
        assert p[..k] == p;
      }
    }
    MakeDirsEffect(t, p, true);
  }

  /** The built executable, a file when present, copied into a platform directory
      where nothing has its name yet. */
  lemma ExecutableCopiedSucceeds(m: Tree, dir: Path, pl: Platform)
    requires IsDir(m, dir) && dir + [ExecutableName(pl)] !in m
    requires BuiltExecutable(pl) in m ==> IsFile(m, BuiltExecutable(pl))
    ensures ExecutableCopied(m, dir, pl).Success?
  {
    var exe := BuiltExecutable(pl);
    if exe in m {
      var target := dir + [ExecutableName(pl)];
      assert CopyTarget(m, exe, dir) == target;
      assert Parent(target) == dir;
    }
  }

  /** The fallback folder, new in a platform directory, gets the sources that exist
      when each has the kind its copy call expects. */
  lemma FallbackSourcesSucceeds(e: Tree, dir: Path)
    requires WellFormed(e) && IsDir(e, dir) && ApartFromSources(dir)
    requires PythonDir(dir) !in e && forall x :: PythonDir(dir) + [x] !in e
    requires BridgeSource in e ==> IsFile(e, BridgeSource)
    requires RequirementsSource in e ==> IsFile(e, RequirementsSource)
    requires AssetsSource in e ==> IsDir(e, AssetsSource)
    ensures FallbackSources(e, dir).Success?
  {
    var py := PythonDir(dir);
    FallbackDirApart(dir);
    MakeChildDirs(e, dir, PythonDirName);
    MakeDirsWellFormed(e, py, true);
    var made := MakeDirs(e, py, true).value;
    MadeFallbackDir(e, py);
    SourcesKept(e, made, py);
    assert py + [BridgeName] !in made && py + [RequirementsName] !in made && py + [AssetsName] !in made;
    FallbackFilesSucceeds(made, py);
    var files := FallbackFiles(made, py).value;
    FallbackFilesEffect(made, py);
    SourcesKept(made, files, py);
    assert AssetsSource + [] == AssetsSource;
    if AssetsSource in files {
      AssetsTreeCopies(files, py);
    }
  }

  /** `copy2` of the bridge source and `requirements.txt`, files when present, into a
      fallback folder that has neither yet. */
  lemma FallbackFilesSucceeds(made: Tree, py: Path)
    requires WellFormed(made) && IsDir(made, py) && FallbackApart(py)
    requires py + [BridgeName] !in made && py + [RequirementsName] !in made
    requires BridgeSource in made ==> IsFile(made, BridgeSource)
    requires RequirementsSource in made ==> IsFile(made, RequirementsSource)
    ensures FallbackFiles(made, py).Success? && WellFormed(FallbackFiles(made, py).value)
  {
    CopyIntoFolder(made, BridgeSource, py);
    var bridge := CopyIfPresent(made, BridgeSource, py).value;
    CopiedIntoFallback(made, BridgeSource, py);
    SourcesKept(made, bridge, py);
    SiblingsApart(py, RequirementsName, BridgeName);
    CopyIntoFolder(bridge, RequirementsSource, py);
  }

  /** `copy2(src, py)` of a file, when present, into a folder that has nothing of its
      name. */
  lemma CopyIntoFolder(t: Tree, src: Path, py: Path)
    requires WellFormed(t) && IsDir(t, py) && src != [] && py + [Name(src)] !in t
    requires src in t ==> IsFile(t, src)
    ensures CopyIfPresent(t, src, py).Success? && WellFormed(CopyIfPresent(t, src, py).value)
  {
    if src in t {
      assert CopyTarget(t, src, py) == py + [Name(src)];
      assert Parent(py + [Name(src)]) == py;
      CopyFileWellFormed(t, src, py);
    }
  }

  /** `copytree("assets", py / "assets", dirs_exist_ok=True)` into a fallback folder that
      has no `assets` yet. */
  lemma AssetsTreeCopies(files: Tree, py: Path)
    requires WellFormed(files) && IsDir(files, py) && py + [AssetsName] !in files
    requires IsDir(files, AssetsSource)
    ensures CopyTree(files, AssetsSource, py + [AssetsName], true).Success?
  {
    var dst := py + [AssetsName];
    MakeChildDirs(files, py, AssetsName);
    var made := MakeDirs(files, dst, true).value;
    MakeDirsEffect(files, dst, true);
    assert dst[..|dst|] == dst;
    var sub := Subtree(files, AssetsSource);
    assert AssetsSource + [] == AssetsSource && dst + [] == dst;
    forall rel | rel in sub && dst + rel in made ensures made[dst + rel].Dir? == sub[rel].Dir? {
      if rel != [] {
        assert !IsPrefix(dst + rel, dst);
        if dst + rel in files {
          AncestorIsDir(files, dst, dst + rel);
        }
      }
    }
    assert !KindClash(made, dst, sub);
  }

  /** The launcher scripts and the README written into a fallback folder that holds
      nothing but (possibly) the copied sources. */
  lemma FallbackDocsSucceeds(s: Tree, py: Path, pl: Platform, docs: Documents)
    requires IsDir(s, py) && py != []
    requires forall x :: x !in {BridgeName, RequirementsName, AssetsName} ==> py + [x] !in s
    ensures FallbackDocs(s, py, pl, docs).Success?
  {
    assert Parent(py + [LauncherName]) == py && Parent(py + [ShellWrapperName]) == py;
    assert Parent(py + [BatchWrapperName]) == py && Parent(py + [ReadmeName]) == py;
    var launcher := WriteText(s, py + [LauncherName], docs.launcher).value;
    SiblingsApart(py, LauncherName, ShellWrapperName);
    SiblingsApart(py, LauncherName, BatchWrapperName);
    SiblingsApart(py, LauncherName, ReadmeName);
    SiblingsApart(py, ShellWrapperName, BatchWrapperName);
    SiblingsApart(py, ShellWrapperName, ReadmeName);
    SiblingsApart(py, BatchWrapperName, ReadmeName);
    assert py + [ShellWrapperName] !in launcher;
    var shell := if IsUnix(pl) then ShellWrapperWritten(launcher, py, docs).value else launcher;
    assert py + [BatchWrapperName] !in shell && IsDir(shell, py);
    var scripts := LauncherScripts(s, py, pl, docs).value;
    assert py + [ReadmeName] !in scripts;
  }

  /** The platform directory `dir` after the executable step, ready for the Python
      fallback: a directory of a well-formed tree with no fallback folder and no README
      in it yet, and the sources of the kind their copy calls expect. */
  ghost predicate FallbackReady(e: Tree, dir: Path) {
    && WellFormed(e) && IsDir(e, dir)
    && PythonDir(dir) !in e && (forall x :: PythonDir(dir) + [x] !in e)
    && dir + [ReadmeName] !in e
    && (BridgeSource in e ==> IsFile(e, BridgeSource))
    && (RequirementsSource in e ==> IsFile(e, RequirementsSource))
    && (AssetsSource in e ==> IsDir(e, AssetsSource))
  }

  /** The platform directory made and the executable copied into it, when the
      directory is new: what the Python fallback then starts from. */
  lemma ExecutableStage(t: Tree, out: Path, pl: Platform)
    requires WellFormed(t) && out != [] && IsDir(t, out)
    requires ApartFromSources(PlatformDir(out, pl)) && PlatformDir(out, pl) !in t
    requires SourcesOfKind(t, pl)
    ensures MakeDirs(t, PlatformDir(out, pl), true).Success?
    ensures var dir := PlatformDir(out, pl); var m := MakeDirs(t, dir, true).value;
      && ExecutableCopied(m, dir, pl).Success?
      && FallbackReady(ExecutableCopied(m, dir, pl).value, dir)
  {
    var dir := PlatformDir(out, pl);
    FreshFromWellFormed(t, dir);
    MakeChildDirs(t, out, PlatformName(pl));
    MakeDirsWellFormed(t, dir, true);
    var m := MakeDirs(t, dir, true).value;
    MadePlatformDir(t, dir);
    BuildOutsideOutput(dir, pl);
    assert SameAt(t, m, BuiltExecutable(pl));
    assert IsPrefix(dir, dir + [ExecutableName(pl)]);
    ExecutableCopiedSucceeds(m, dir, pl);
    ExecutableCopiedWellFormed(m, dir, pl);
    ExecutableInFresh(t, m, dir, pl);
    ExecutableCopiedEffect(m, dir, pl);
    SiblingsApart(dir, ExecutableName(pl), PythonDirName);
    SiblingsApart(dir, ExecutableName(pl), ReadmeName);
    assert IsPrefix(dir, PythonDir(dir)) && IsPrefix(dir, dir + [ReadmeName]);
    SourcesOutsidePackage(t, ExecutableCopied(m, dir, pl).value, dir);
  }

  /** A change confined to a platform directory apart from the sources keeps them. */
  lemma SourcesOutsidePackage(t: Tree, e: Tree, dir: Path)
    requires ApartFromSources(dir) && dir != [] && Confined(t, e, dir)
    ensures SameAt(t, e, BridgeSource) && SameAt(t, e, RequirementsSource) && SameAt(t, e, AssetsSource)
  {
    assert BridgeSource[0] != dir[0] && RequirementsSource[0] != dir[0] && AssetsSource[0] != dir[0];
  }

  /** `package_platform` up to the DMG gets through on a new platform directory inside
      an existing output directory, when each source has the kind its copy call
      expects; a missing executable is only a warning. */
  lemma AssembledSucceeds(t: Tree, out: Path, pl: Platform, docs: Documents)
    requires WellFormed(t) && out != [] && IsDir(t, out)
    requires ApartFromSources(PlatformDir(out, pl)) && PlatformDir(out, pl) !in t
    requires SourcesOfKind(t, pl)
    ensures Assembled(t, out, pl, docs).Success?
  {
    var dir := PlatformDir(out, pl);
    ExecutableStage(t, out, pl);
    var e := ExecutableCopied(MakeDirs(t, dir, true).value, dir, pl).value;
    FallbackStage(e, dir, pl, docs);
    ReadmeWritable(e, dir, pl, docs);
  }

  /** The Python fallback gets through on a platform directory ready for it. */
  lemma FallbackStage(e: Tree, dir: Path, pl: Platform, docs: Documents)
    requires FallbackReady(e, dir) && ApartFromSources(dir)
    ensures PythonFallback(e, dir, pl, docs).Success? && WellFormed(PythonFallback(e, dir, pl, docs).value)
  {
    var py := PythonDir(dir);
    FallbackSourcesSucceeds(e, dir);
    FallbackSourcesEffect(e, dir);
    FallbackSourcesWellFormed(e, dir);
    var sources := FallbackSources(e, dir).value;
    FallbackDocsSucceeds(sources, py, pl, docs);
    FallbackDocsWellFormed(sources, py, pl, docs);
  }

  /** After the Python fallback, `README.md` can be written into the platform directory
      when nothing had that name before. */
  lemma ReadmeWritable(e: Tree, dir: Path, pl: Platform, docs: Documents)
    requires ApartFromSources(dir) && dir != [] && dir + [ReadmeName] !in e
    requires PythonFallback(e, dir, pl, docs).Success? && WellFormed(PythonFallback(e, dir, pl, docs).value)
    ensures WriteText(PythonFallback(e, dir, pl, docs).value, dir + [ReadmeName], docs.platformReadme).Success?
  {
    var py := PythonDir(dir);
    var f := PythonFallback(e, dir, pl, docs).value;
    PythonFallbackSources(e, dir, pl, docs);
    assert IsPrefix(dir, py);
    AncestorIsDir(f, dir, py);
    assert Parent(dir + [ReadmeName]) == dir;
    SiblingsApart(dir, ReadmeName, PythonDirName);
    assert SameAt(e, f, dir + [ReadmeName]);
  }

  /** A package assembled in a new platform directory has nothing in it but the
      executable, the Python fallback folder and `README.md`. */
  lemma AssembledChildren(t: Tree, out: Path, pl: Platform, docs: Documents)
    requires FreshBelow(t, PlatformDir(out, pl)) && ApartFromSources(PlatformDir(out, pl))
    requires Assembled(t, out, pl, docs).Success?
    ensures forall n :: PlatformDir(out, pl) + [n] in Assembled(t, out, pl, docs).value ==>
      n == ExecutableName(pl) || n == PythonDirName || n == ReadmeName
  {
    var dir := PlatformDir(out, pl);
    var py := PythonDir(dir);
    var m := MakeDirs(t, dir, true).value;
    MadePlatformDir(t, dir);
    var e := ExecutableCopied(m, dir, pl).value;
    ExecutableCopiedEffect(m, dir, pl);
    var f := PythonFallback(e, dir, pl, docs).value;
    PythonFallbackSources(e, dir, pl, docs);
    var readme := dir + [ReadmeName];
    WriteFileValue(f, readme, Text(docs.platformReadme));
    forall n | n != ExecutableName(pl) && n != PythonDirName && n != ReadmeName
      ensures dir + [n] !in Assembled(t, out, pl, docs).value
    {
      SiblingsApart(dir, n, ReadmeName);
      SiblingsApart(dir, n, PythonDirName);
      SiblingsApart(dir, n, ExecutableName(pl));
      assert IsPrefix(dir, dir + [n]);
      assert SameAt(e, f, dir + [n]);
    }
  }
}
