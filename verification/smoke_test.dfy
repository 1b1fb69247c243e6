/**
 * Scripts/smoke_test.py: the checks run on `builds/{platform}` after packaging. Each
 * check reads the tree; the `--help` run of the executable is an oracle, `RunOutcome`,
 * saying how `subprocess.run(..., timeout=30)` ended. `main` returns the exit status.
 */
module SmokeTest {
  import opened FileTree
  import opened PackageTemplates
  import opened PackageApp
  import opened PackageMain

  /** How running the executable with `--help` ended. */
  datatype RunOutcome =
    | Exited(code: int)   // the process ran to its end with this exit status
    | TimedOut            // `subprocess.TimeoutExpired` after 30 seconds
    | Raised              // any other exception while starting or running it

  /** `test_executable`: a missing executable fails; otherwise exit status 0 passes,
      any other status fails, a timeout passes (an interactive program waits for
      input) and an exception fails. */
  function TestExecutable(t: Tree, exe: Path, run: RunOutcome): (ok: bool)
    ensures ok ==> exe in t
    ensures exe in t ==> (ok <==> run == Exited(0) || run == TimedOut)
  {
    if exe !in t then false
    else
      match run
      case Exited(code) => code == 0
      case TimedOut => true
      case Raised => false
  }

  /** The files `test_python_fallback` requires in the fallback folder, in its order. */
  const RequiredFiles: seq<string> := [BridgeName, RequirementsName, LauncherName, ReadmeName]

  /** What `test_python_fallback` accepts: the folder, the four required files, and the
      platform's wrapper, which on Linux and macOS must also be executable. */
  predicate FallbackValid(t: Tree, py: Path, pl: Platform) {
    && py in t
    && (forall f :: f in RequiredFiles ==> py + [f] in t)
    && (IsUnix(pl) ==> py + [ShellWrapperName] in t && Executable(t[py + [ShellWrapperName]]))
    && (pl == Windows ==> py + [BatchWrapperName] in t)
  }

  /** `test_python_fallback`: the `for` loop over the required files returns `False` at
      the first one missing. */
  method TestPythonFallback(t: Tree, py: Path, pl: Platform) returns (ok: bool)
    ensures ok <==> FallbackValid(t, py, pl)
  {
    if py !in t {
      return false;
    }
    for i := 0 to |RequiredFiles|
      invariant forall j :: 0 <= j < i ==> py + [RequiredFiles[j]] in t
    {
      if py + [RequiredFiles[i]] !in t {
        return false;
      }
    }
    if IsUnix(pl) {
      var sh := py + [ShellWrapperName];
      if sh !in t {
        return false;
      }
      if !Executable(t[sh]) {
        return false;
      }
    } else if pl == Windows {
      if py + [BatchWrapperName] !in t {
        return false;
      }
    }
    return true;
  }

  /** `test_package_structure`: the platform directory with its README, the executable
      and the Python fallback folder, each checked in turn. */
  function TestPackageStructure(t: Tree, dir: Path, pl: Platform): (ok: bool)
    ensures ok <==> dir in t && dir + [ReadmeName] in t && dir + [ExecutableName(pl)] in t
                    && PythonDir(dir) in t
  {
    if dir !in t then false
    else if dir + [ReadmeName] !in t then false
    else if dir + [ExecutableName(pl)] !in t then false
    else PythonDir(dir) in t
  }

  /** The exit status `main` returns for the tree `t`: 1 at once when the structure
      check fails, otherwise 0 exactly when the executable and the fallback pass too. */
  function SmokeStatus(t: Tree, pl: Platform, run: RunOutcome, fallbackOk: bool): (code: int)
    ensures code == 0 || code == 1
    ensures !TestPackageStructure(t, PlatformDir(BuildsDir, pl), pl) ==> code == 1
    ensures code == 0 <==>
      && TestPackageStructure(t, PlatformDir(BuildsDir, pl), pl)
      && TestExecutable(t, PlatformDir(BuildsDir, pl) + [ExecutableName(pl)], run)
      && fallbackOk
  {
    var dir := PlatformDir(BuildsDir, pl);
    if !TestPackageStructure(t, dir, pl) then 1
    else if TestExecutable(t, dir + [ExecutableName(pl)], run) && fallbackOk then 0
    else 1
  }

  /** `main`, on `builds/{platform}`. */
  method RunSmokeTests(t: Tree, pl: Platform, run: RunOutcome) returns (exitCode: int)
    ensures exitCode == SmokeStatus(t, pl, run, FallbackValid(t, PythonDir(PlatformDir(BuildsDir, pl)), pl))
  {
    var dir := PlatformDir(BuildsDir, pl);
    var structureOk := TestPackageStructure(t, dir, pl);
    if !structureOk {
      return 1;
    }
    var executableOk := TestExecutable(t, dir + [ExecutableName(pl)], run);
    var pythonOk := TestPythonFallback(t, PythonDir(dir), pl);
    exitCode := if structureOk && executableOk && pythonOk then 0 else 1;
  }

  // ---------------------------------------------------------------------------
  // The smoke test on what the packaging leaves

  /** In a freshly packaged directory the structure check passes exactly when the
      build left an executable, and the fallback check exactly when the bridge and
      `requirements.txt` were there to copy. */
  lemma PackagePassesChecks(t: Tree, pl: Platform, docs: Documents, u: Tree)
    requires FreshBelow(t, PlatformDir(BuildsDir, pl)) && Packaged(t, u, pl, docs)
    ensures var dir := PlatformDir(BuildsDir, pl);
      && (TestPackageStructure(u, dir, pl) <==> BuiltExecutable(pl) in t)
      && (FallbackValid(u, PythonDir(dir), pl) <==> BridgeSource in t && RequirementsSource in t)
  {
    var dir := PlatformDir(BuildsDir, pl);
    var made := MakeDir(t, BuildsDir, true).value;
    MadeBuildsKeeps(t, pl);
    ApartFromBuilds(pl);
    PackageLayout(made, BuildsDir, pl, docs);
    AssembledHasDir(made, BuildsDir, pl, docs);
    var a := Assembled(made, BuildsDir, pl, docs).value;
    PackageChecksFrom(made, a, u, dir, pl, docs);
  }

  /** Making `builds` keeps what the packaging reads, and the platform directory new. */
  lemma MadeBuildsKeeps(t: Tree, pl: Platform)
    requires FreshBelow(t, PlatformDir(BuildsDir, pl)) && MakeDir(t, BuildsDir, true).Success?
    ensures var made := MakeDir(t, BuildsDir, true).value;
      && FreshBelow(made, PlatformDir(BuildsDir, pl))
      && SameAt(t, made, BuiltExecutable(pl))
      && SameAt(t, made, BridgeSource) && SameAt(t, made, RequirementsSource)
  {
    var made := MakeDir(t, BuildsDir, true).value;
    assert forall q :: q in made ==> q in t || q == BuildsDir;
    assert !IsPrefix(PlatformDir(BuildsDir, pl), BuildsDir);
  }

  /** `builds/{platform}` is apart from the sources the package copies. */
  lemma ApartFromBuilds(pl: Platform)
    ensures ApartFromSources(PlatformDir(BuildsDir, pl))
  {
    assert PlatformDir(BuildsDir, pl)[0] == "builds";
  }

  /** The checks on `u`, which agrees with the assembled tree `a` at and below `dir`. */
  lemma PackageChecksFrom(made: Tree, a: Tree, u: Tree, dir: Path, pl: Platform, docs: Documents)
    requires forall rel :: SameAt(a, u, dir + rel)
    requires IsDir(a, dir) && IsFile(a, dir + [ReadmeName])
    requires dir + [ExecutableName(pl)] in a <==> BuiltExecutable(pl) in made
    requires FallbackLayout(made, a, PythonDir(dir), pl, docs)
    ensures TestPackageStructure(u, dir, pl) <==> BuiltExecutable(pl) in made
    ensures FallbackValid(u, PythonDir(dir), pl) <==> BridgeSource in made && RequirementsSource in made
  {
    var py := PythonDir(dir);
    assert SameAt(a, u, dir + []) && dir + [] == dir;
    assert SameAt(a, u, dir + [ReadmeName]);
    assert SameAt(a, u, dir + [ExecutableName(pl)]);
    assert SameAt(a, u, dir + [PythonDirName]);
    forall x ensures SameAt(a, u, py + [x]) {
      assert py + [x] == dir + [PythonDirName, x];
    }
    assert IsDir(a, py);
    assert OwnerExecutable(ExecutableMode);
    assert forall f :: f in RequiredFiles ==> (py + [f] in a <==> py + [f] in u);
  }
}
