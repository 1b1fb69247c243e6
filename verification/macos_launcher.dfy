/**
 * Scripts/setup_macos_launcher.py: before signing, the executable inside the app
 * bundle is renamed `Jumperless_cli` and replaced by a shell script that opens
 * Terminal and runs it there.
 */
module MacosLauncher {
  import opened Wrappers
  import opened FileTree
  import opened Workspaces
  import opened PackageTemplates

  const AppBundle: Path := ["dist", "macos", "Jumperless.app"]
  const MacosDir: Path := AppBundle + ["Contents", "MacOS"]
  /** Where the bundle's executable is, and where the launcher script goes. */
  const OriginalExecutable: Path := MacosDir + ["Jumperless"]
  /** Where the bundle's executable is moved to. */
  const CliExecutable: Path := MacosDir + ["Jumperless_cli"]

  /** The launcher script the hack writes. */
  function LauncherScript(): string {
    Lines([
      "#!/bin/bash",
      "# Jumperless macOS Launcher",
      "# Opens Terminal and runs the CLI application",
      "",
      "# Get the directory of this script (inside the app bundle)",
      @"SCRIPT_DIR=""$(cd ""$(dirname ""$0"")"" && pwd)""",
      @"CLI_EXECUTABLE=""$SCRIPT_DIR/Jumperless_cli""",
      "",
      "# Check if CLI executable exists",
      @"if [ ! -f ""$CLI_EXECUTABLE"" ]; then",
      @"    echo ""Error: CLI executable not found at $CLI_EXECUTABLE""",
      "    exit 1",
      "fi",
      "",
      "# Use AppleScript to open Terminal and run the CLI app",
      @"osascript -e """,
      @"tell application \""Terminal\""",
      "    activate",
      @"    set newWindow to do script \""\""",
      "    delay 0.5",
      @"    do script \""cd '$SCRIPT_DIR' && ./Jumperless_cli\"" in newWindow",
      "    set bounds of front window to {100, 100, 1000, 700}",
      "end tell",
      @"""",
      ""
    ])
  }

  /** The two existence checks that make the hack return `False` without touching
      anything. */
  predicate HackApplies(t: Tree) {
    AppBundle in t && OriginalExecutable in t
  }

  /** The warning printed when a check fails. */
  function HackWarnings(t: Tree): seq<Warning> {
    if AppBundle !in t then [AppBundleNotFound(AppBundle)]
    else if OriginalExecutable !in t then [OriginalExecutableNotFound(OriginalExecutable)]
    else []
  }

  /** An old `Jumperless_cli` unlinked, the executable moved there, the script written
      at its old path and made executable. */
  function Hacked(t: Tree, script: string): FsResult<Tree> {
    var cleared :- if CliExecutable in t then Unlink(t, CliExecutable) else Success(t);
    assert CliExecutable !in cleared;
    var moved :- Move(cleared, OriginalExecutable, CliExecutable);
    var written :- WriteText(moved, OriginalExecutable, script);
    Chmod(written, OriginalExecutable, ExecutableMode)
  }

  /** `setup_macos_launcher_hack()`: `ok` is what it returns, `st` whether an `OSError`
      escaped from it. */
  method SetupLauncherHack(ws: Workspace, script: string) returns (ok: bool, st: Status)
    modifies ws
    ensures ws.warnings == old(ws.warnings) + HackWarnings(old(ws.tree))
    ensures !HackApplies(old(ws.tree)) ==> !ok && st == Done && ws.tree == old(ws.tree)
    ensures HackApplies(old(ws.tree)) ==>
      && st == StatusOf(Hacked(old(ws.tree), script))
      && (ok <==> st.Done?)
      && (st.Done? ==> ws.tree == Hacked(old(ws.tree), script).value)
  {
    if AppBundle !in ws.tree {
      ws.Warn(AppBundleNotFound(AppBundle));
      return false, Done;
    }
    if OriginalExecutable !in ws.tree {
      ws.Warn(OriginalExecutableNotFound(OriginalExecutable));
      return false, Done;
    }
    ghost var t := ws.tree;
    ok := false;
    if CliExecutable in ws.tree {
      st := ws.Perform(Unlink(ws.tree, CliExecutable));
      if st.Crashed? {
        return;
      }
    }
    ghost var cleared := ws.tree;
    assert cleared == (if CliExecutable in t then Unlink(t, CliExecutable) else Success(t)).value;
    st := ws.Perform(Move(ws.tree, OriginalExecutable, CliExecutable));
    if st.Crashed? {
      return;
    }
    st := ws.Perform(WriteText(ws.tree, OriginalExecutable, script));
    if st.Crashed? {
      return;
    }
    st := ws.Perform(Chmod(ws.tree, OriginalExecutable, ExecutableMode));
    if st.Crashed? {
      return;
    }
    ok := true;
  }

  /** The script's `__main__`, writing `script` (`LauncherScript()` in the script):
      exit status 1 when the hack returns `False` or raises, 0 when it returns `True`. */
  method RunHackScript(ws: Workspace, script: string) returns (exitCode: int)
    modifies ws
    ensures exitCode == 0 <==> HackApplies(old(ws.tree)) && Hacked(old(ws.tree), script).Success?
    ensures exitCode == 0 || exitCode == 1
  {
    var ok, st := SetupLauncherHack(ws, script);
    exitCode := if ok && st.Done? then 0 else 1;
  }

  // ---------------------------------------------------------------------------
  // What the hack does

  /** A directory at `Jumperless_cli` cannot be unlinked: the hack raises and nothing
      has changed. */
  lemma HackFailsOnCliDirectory(t: Tree, script: string)
    requires IsDir(t, CliExecutable)
    ensures Hacked(t, script) == Failure(IsADirectory(CliExecutable))
  {
  }

  /** In a well-formed tree where the executable is a file and `Jumperless_cli` is not
      a directory, the hack succeeds: `Jumperless_cli` holds the executable with its
      content and mode, the old path holds the script with mode 0o755, and no other
      entry changes. */
  lemma HackEffect(t: Tree, script: string)
    requires WellFormed(t) && IsFile(t, OriginalExecutable) && !IsDir(t, CliExecutable)
    ensures Hacked(t, script).Success?
    ensures var u := Hacked(t, script).value;
      && CliExecutable in u && u[CliExecutable] == t[OriginalExecutable]
      && OriginalExecutable in u && u[OriginalExecutable] == File(Text(script), ExecutableMode)
      && forall q :: q != CliExecutable && q != OriginalExecutable ==> SameAt(t, u, q)
  {
    var cleared := if CliExecutable in t then t - {CliExecutable} else t;
    LauncherPathsApart();
    MacosDirKept(t);
    CliHasNothingBelow(t);
    forall q | IsPrefix(OriginalExecutable, q) && q != OriginalExecutable ensures q !in t {
      FileIsLeaf(t, OriginalExecutable, q);
    }
    HackEffectFrom(t, cleared, script);
  }

  /** The executable and `Jumperless_cli` are different entries of `Contents/MacOS`,
      neither below the other. */
  lemma LauncherPathsApart()
    ensures !IsPrefix(OriginalExecutable, CliExecutable) && !IsPrefix(CliExecutable, OriginalExecutable)
    ensures !IsPrefix(OriginalExecutable, MacosDir) && !IsPrefix(CliExecutable, MacosDir)
    ensures Parent(OriginalExecutable) == MacosDir && |OriginalExecutable| > 1
  {
    assert OriginalExecutable[5] == "Jumperless" && CliExecutable[5] == "Jumperless_cli";
    assert |OriginalExecutable| == 6 && |CliExecutable| == 6 && |MacosDir| == 5;
  }

  /** In a well-formed tree, `Contents/MacOS` is a directory when the executable is in it. */
  lemma MacosDirKept(t: Tree)
    requires WellFormed(t) && OriginalExecutable in t
    ensures IsDir(t, MacosDir)
  {
    LauncherPathsApart();
  }

  /** In a well-formed tree where `Jumperless_cli` is not a directory, nothing is below it. */
  lemma CliHasNothingBelow(t: Tree)
    requires WellFormed(t) && !IsDir(t, CliExecutable)
    ensures forall q :: IsPrefix(CliExecutable, q) && q != CliExecutable ==> q !in t
  {
    forall q | IsPrefix(CliExecutable, q) && q != CliExecutable ensures q !in t {
      if q in t {
        AncestorIsDir(t, CliExecutable, q);
      }
    }
  }

  /** The steps of the hack, from the facts about the tree they need. */
  lemma HackEffectFrom(t: Tree, cleared: Tree, script: string)
    requires IsFile(t, OriginalExecutable) && !IsDir(t, CliExecutable) && IsDir(t, MacosDir)
    requires cleared == if CliExecutable in t then t - {CliExecutable} else t
    requires forall q :: IsPrefix(CliExecutable, q) && q != CliExecutable ==> q !in t
    requires forall q :: IsPrefix(OriginalExecutable, q) && q != OriginalExecutable ==> q !in t
    requires !IsPrefix(OriginalExecutable, CliExecutable) && !IsPrefix(CliExecutable, OriginalExecutable)
    requires !IsPrefix(OriginalExecutable, MacosDir) && !IsPrefix(CliExecutable, MacosDir)
    requires Parent(OriginalExecutable) == MacosDir && |OriginalExecutable| > 1
    ensures Hacked(t, script).Success?
    ensures var u := Hacked(t, script).value;
      && CliExecutable in u && u[CliExecutable] == t[OriginalExecutable]
      && OriginalExecutable in u && u[OriginalExecutable] == File(Text(script), ExecutableMode)
      && forall q :: q != CliExecutable && q != OriginalExecutable ==> SameAt(t, u, q)
  {
    var orig := OriginalExecutable;
    var cli := CliExecutable;
    assert (if cli in t then Unlink(t, cli) else Success(t)) == Success(cleared);
    MoveLeaf(cleared, orig, cli);
    var moved := (cleared - {orig})[cli := t[orig]];
    assert IsDir(moved, MacosDir);
    var written := moved[orig := File(Text(script), NewFileMode)];
    assert WriteText(moved, orig, script) == Success(written);
    var u := written[orig := File(Text(script), ExecutableMode)];
    assert Hacked(t, script) == Success(u);
  }

  /** `shutil.move` of an entry with nothing below it onto a new path. */
  lemma MoveLeaf(s: Tree, src: Path, dst: Path)
    requires src in s && dst !in s
    requires forall q :: IsPrefix(src, q) && q != src ==> q !in s
    ensures Move(s, src, dst) == Success((s - {src})[dst := s[src]])
  {
    var sub := Subtree(s, src);
    forall rel ensures rel in sub <==> rel == [] {
      assert IsPrefix(src, src + rel);
      assert src + [] == src;
    }
    assert sub == map[[] := s[src]];
    var g := Graft(dst, sub);
    forall q | q in g ensures q == dst {
      assert q == dst + q[|dst|..];
    }
    assert dst + [] == dst;
    assert g == map[dst := s[src]];
    var w := Without(s, src);
    forall q ensures q in w <==> q in s && q != src {
      if q in s && q != src {
        assert !IsPrefix(src, q);
      }
    }
    assert w == s - {src};
    var r := (s - {src})[dst := s[src]];
    forall q ensures (q in w + g <==> q in r) && (q in r ==> (w + g)[q] == r[q]) {
    }
    assert w + g == r;
    assert Move(s, src, dst) == Success(w + g);
  }
}
