/**
 * The fixed parts of a Scripts/package_app.py release package: the platforms and
 * architectures, the names the package uses, the text of the three launcher scripts,
 * the two README templates, and the interpreter search the generated wrappers perform.
 */
module PackageTemplates {
  import opened Wrappers
  import opened PyStr

  /** The `--platform` choices. */
  datatype Platform = Linux | MacOS | Windows

  /** The `--arch` choices. */
  datatype Arch = X64 | Arm64

  /** The `--platform` value. */
  function PlatformName(pl: Platform): string {
    match pl
    case Linux => "linux"
    case MacOS => "macos"
    case Windows => "windows"
  }

  /** The `--arch` value. */
  function ArchName(a: Arch): string {
    match a
    case X64 => "x64"
    case Arm64 => "arm64"
  }

  /** `platform in ['linux', 'macos']` */
  predicate IsUnix(pl: Platform) {
    pl == Linux || pl == MacOS
  }

  /** The name `create_platform_readme` shows for a platform. */
  function DisplayName(pl: Platform): string {
    match pl
    case Linux => "Linux"
    case MacOS => "macOS"
    case Windows => "Windows"
  }

  /** The native executable's file name: "Jumperless", plus ".exe" on Windows. */
  function ExecutableName(pl: Platform): string {
    "Jumperless" + if pl == Windows then ".exe" else ""
  }

  /** The executable name ends in ".exe" exactly on Windows. */
  lemma ExecutableNameSuffix(pl: Platform)
    ensures StartsWith(ExecutableName(pl), "Jumperless")
    ensures (|ExecutableName(pl)| == 14 && ExecutableName(pl)[10..] == ".exe") <==> pl == Windows
    ensures pl != Windows ==> ExecutableName(pl) == "Jumperless"
  {
  }

  /** The archive file stem `Jumperless-{platform.title()}`. */
  function ArchiveStem(pl: Platform): string {
    "Jumperless-" + Title(PlatformName(pl))
  }

  /** `str.title()` capitalises only the first letter, so the macOS archives are
      "Jumperless-Macos". */
  lemma ArchiveStemOf(pl: Platform)
    ensures pl == Linux ==> ArchiveStem(pl) == "Jumperless-Linux"
    ensures pl == MacOS ==> ArchiveStem(pl) == "Jumperless-Macos"
    ensures pl == Windows ==> ArchiveStem(pl) == "Jumperless-Windows"
  {
    match pl
    case Linux => LinuxStem();
    case MacOS => MacosStem();
    case Windows => WindowsStem();
  }

  lemma LinuxStem()
    ensures ArchiveStem(Linux) == "Jumperless-Linux"
  {
    TitleOfName("linux", "Linux");
  }

  lemma MacosStem()
    ensures ArchiveStem(MacOS) == "Jumperless-Macos"
  {
    TitleOfName("macos", "Macos");
  }

  lemma WindowsStem()
    ensures ArchiveStem(Windows) == "Jumperless-Windows"
  {
    WindowsTitle();
  }

  lemma WindowsTitle()
    ensures Title("windows") == "Windows"
  {
    TitleOfName("windows", "Windows");
  }

  lemma TitleOfName(w: string, titled: string)
    requires w != [] && forall i :: 0 <= i < |w| ==> IsLower(w[i])
    requires |titled| == |w| && titled[0] == ToUpper(w[0]) && titled[1..] == w[1..]
    ensures Title(w) == titled
  {
    TitleOfWord(w);
  }

  /** `title()` of a word of lower-case letters upper-cases its first letter only. */
  lemma TitleOfWord(w: string)
    requires w != [] && forall i :: 0 <= i < |w| ==> IsLower(w[i])
    ensures Title(w) == [ToUpper(w[0])] + w[1..]
  {
    TitleFromLower(w[1..]);
  }

  /** After a cased letter, lower-case letters are left as they are. */
  lemma {:induction false} TitleFromLower(s: string)
    requires forall i :: 0 <= i < |s| ==> IsLower(s[i])
    ensures TitleFrom(s, true) == s
  {
    if s != [] {
      TitleFromLower(s[1..]);
    }
  }

  /** The name of the DMG `create_macos_dmg` builds. */
  function DmgName(a: Arch): string {
    "Jumperless-macOS-" + ArchName(a) + ".dmg"
  }

  /** The staging directory `create_macos_dmg` copies the package into. */
  function TempDmgName(a: Arch): string {
    "temp_dmg_" + ArchName(a)
  }

  const PythonDirName: string := "Jumperless Python"
  const BridgeName: string := "JumperlessWokwiBridge.py"
  const RequirementsName: string := "requirements.txt"
  const AssetsName: string := "assets"
  const LauncherName: string := "launcher.py"
  const ReadmeName: string := "README.md"
  const ShellWrapperName: string := "run_jumperless.sh"
  const BatchWrapperName: string := "run_jumperless.bat"

  /** The wrapper script a platform's Python fallback is started with. */
  function WrapperName(pl: Platform): string {
    if IsUnix(pl) then ShellWrapperName else BatchWrapperName
  }

  /** `"\n".join(lines)` */
  function Lines(lines: seq<string>): string {
    if lines == [] then ""
    else if |lines| == 1 then lines[0]
    else lines[0] + "\n" + Lines(lines[1..])
  }

  // ---------------------------------------------------------------------------
  // The generated launcher scripts

  /** `launcher.py`, the same on every platform. */
  const LauncherScript: string := Lines([
      "#!/usr/bin/env python3",
      "\"\"\"",
      "Jumperless Python Launcher",
      "Automatically installs dependencies and runs the application",
      "\"\"\"",
      "",
      "import sys",
      "import subprocess",
      "import os",
      "from pathlib import Path",
      "",
      "def install_dependencies():",
      "    \"\"\"Install required dependencies\"\"\"",
      "    print(\"Installing dependencies...\")",
      "    try:",
      "        subprocess.run([sys.executable, \"-m\", \"pip\", \"install\", \"-r\", \"requirements.txt\"], ",
      "                      check=True, capture_output=True)",
      "        print(\"Dependencies installed successfully\")",
      "        return True",
      "    except subprocess.CalledProcessError as e:",
      "        print(f\"Failed to install dependencies: {e}\")",
      "        print(\"Please install dependencies manually:\")",
      "        print(f\"  {sys.executable} -m pip install -r requirements.txt\")",
      "        return False",
      "",
      "def main():",
      "    \"\"\"Main launcher function\"\"\"",
      "    print(\"Jumperless Python Launcher\")",
      "    print(\"=\" * 40)",
      "    ",
      "    # Check if we're in the right directory",
      "    if not Path(\"JumperlessWokwiBridge.py\").exists():",
      "        print(\"JumperlessWokwiBridge.py not found!\")",
      "        print(\"Please run this script from the 'Jumperless Python' directory\")",
      "        sys.exit(1)",
      "    ",
      "    # Install dependencies if needed",
      "    try:",
      "        import serial",
      "        import requests",
      "        # Add other key imports here",
      "    except ImportError:",
      "        if not install_dependencies():",
      "            sys.exit(1)",
      "    ",
      "    # Run the main application",
      "    print(\"Starting Jumperless...\")",
      "    try:",
      "        # Import and run the main application",
      "        spec = importlib.util.spec_from_file_location(\"Jumperless\", \"JumperlessWokwiBridge.py\")",
      "        module = importlib.util.module_from_spec(spec)",
      "        spec.loader.exec_module(module)",
      "        if hasattr(module, 'main'):",
      "            module.main()",
      "        else:",
      "            print(\"Warning: No main() function found in JumperlessWokwiBridge.py\")",
      "    except Exception as e:",
      "        print(f\"Error running application: {e}\")",
      "        sys.exit(1)",
      "",
      "if __name__ == \"__main__\":",
      "    import importlib.util",
      "    main()",
      ""
    ])

  /** `run_jumperless.sh` */
  const ShellScript: string := Lines([
      "#!/bin/bash",
      "# Jumperless Shell Launcher",
      "# Finds Python and runs the application",
      "",
      "echo \"Jumperless Shell Launcher\"",
      "echo \"==========================\"",
      "",
      "# Find Python",
      "PYTHON_CMD=\"\"",
      "for cmd in python3 python python3.11 python3.10 python3.9; do",
      "    if command -v \"$cmd\" &> /dev/null; then",
      "        PYTHON_CMD=\"$cmd\"",
      "        break",
      "    fi",
      "done",
      "",
      "if [ -z \"$PYTHON_CMD\" ]; then",
      "    echo \"Python not found! Please install Python 3.9+ and try again.\"",
      "    exit 1",
      "fi",
      "",
      "echo \"Using Python: $PYTHON_CMD\"",
      "",
      "# Change to script directory",
      "cd \"$(dirname \"$0\")\"",
      "",
      "# Run the launcher",
      "exec \"$PYTHON_CMD\" launcher.py \"$@\"",
      ""
    ])

  /** `run_jumperless.bat` */
  const BatchScript: string := Lines([
      "@echo off",
      "REM Jumperless Windows Launcher",
      "REM Finds Python and runs the application",
      "",
      "echo Jumperless Windows Launcher",
      "echo ==========================",
      "",
      "REM Find Python",
      "set PYTHON_CMD=",
      "for %%i in (python.exe python3.exe py.exe) do (",
      "    where /q %%i",
      "    if not errorlevel 1 (",
      "        set PYTHON_CMD=%%i",
      "        goto found",
      "    )",
      ")",
      "",
      "echo Python not found! Please install Python 3.9+ and try again.",
      "pause",
      "exit /b 1",
      "",
      ":found",
      "echo Using Python: %PYTHON_CMD%",
      "",
      "REM Change to script directory",
      "cd /d \"%~dp0\"",
      "",
      "REM Run the launcher",
      "%PYTHON_CMD% launcher.py %*",
      ""
    ])

  /** The interpreters `run_jumperless.sh` tries, in order. */
  const ShellCandidates: seq<string> := ["python3", "python", "python3.11", "python3.10", "python3.9"]

  /** The interpreters `run_jumperless.bat` tries, in order. */
  const BatchCandidates: seq<string> := ["python.exe", "python3.exe", "py.exe"]

  /** The first candidate that is available, as the wrappers' `for` loops pick it. */
  function FirstAvailable(candidates: seq<string>, available: set<string>): (r: Option<string>)
    ensures r.Some? ==> r.value in available
    ensures r.None? <==> forall i :: 0 <= i < |candidates| ==> candidates[i] !in available
  {
    if candidates == [] then None
    else if candidates[0] in available then Some(candidates[0])
    else
      var r := FirstAvailable(candidates[1..], available);
      assert forall i :: 1 <= i < |candidates| ==> candidates[i] == candidates[1..][i - 1];
      r
  }

  /** What `FirstAvailable` picks is the earliest available candidate; `i` is its
      position. */
  lemma {:induction false} FirstAvailableIsFirst(candidates: seq<string>, available: set<string>) returns (i: nat)
    requires FirstAvailable(candidates, available).Some?
    ensures i < |candidates| && candidates[i] == FirstAvailable(candidates, available).value
    ensures forall j :: 0 <= j < i ==> candidates[j] !in available
  {
    if candidates[0] in available {
      i := 0;
    } else {
      var k := FirstAvailableIsFirst(candidates[1..], available);
      i := k + 1;
      assert candidates[i] == candidates[1..][k];
      forall j | 0 <= j < i ensures candidates[j] !in available {
        if j > 0 {
          assert candidates[j] == candidates[1..][j - 1];
        }
      }
    }
  }

  /** How a wrapper run ends: it hands over to `launcher.py` with an interpreter, or
      reports that Python was not found and exits with status 1. */
  datatype WrapperRun = Launched(interpreter: string) | PythonNotFound(exitStatus: int)

  /** A run of the platform's wrapper script, given the commands on the `PATH`. */
  function RunWrapper(pl: Platform, available: set<string>): WrapperRun {
    var found := FirstAvailable(if IsUnix(pl) then ShellCandidates else BatchCandidates, available);
    if found.None? then PythonNotFound(1) else Launched(found.value)
  }

  /** The wrapper exits 1 exactly when no candidate is available; otherwise it starts the
      earliest available candidate of its platform's list. */
  lemma WrapperChoosesFirst(pl: Platform, available: set<string>)
    ensures var candidates := if IsUnix(pl) then ShellCandidates else BatchCandidates;
      && (RunWrapper(pl, available) == PythonNotFound(1) <==>
            forall i :: 0 <= i < |candidates| ==> candidates[i] !in available)
      && (RunWrapper(pl, available).Launched? ==>
            exists i :: 0 <= i < |candidates| && candidates[i] == RunWrapper(pl, available).interpreter
              && candidates[i] in available
              && forall j :: 0 <= j < i ==> candidates[j] !in available)
  {
    var candidates := if IsUnix(pl) then ShellCandidates else BatchCandidates;
    if FirstAvailable(candidates, available).Some? {
      var i := FirstAvailableIsFirst(candidates, available);
      assert candidates[i] in available;
    }
  }

  /** On a Unix platform `python3` wins whenever it is available; on Windows `python.exe`. */
  lemma WrapperPrefersFirstCandidate(pl: Platform, available: set<string>)
    ensures IsUnix(pl) && "python3" in available ==> RunWrapper(pl, available) == Launched("python3")
    ensures pl == Windows && "python.exe" in available ==> RunWrapper(pl, available) == Launched("python.exe")
  {
  }

  // ---------------------------------------------------------------------------
  // The texts a package is written with

  /** The texts `package_app.py` writes into a package. */
  datatype Documents = Documents(
    launcher: string,
    shellWrapper: string,
    batchWrapper: string,
    pythonReadme: string,
    platformReadme: string)

  /** The texts for a platform's package. */
  function DocumentsFor(pl: Platform): Documents {
    Documents(LauncherScript, ShellScript, BatchScript, PythonReadme(pl), PlatformReadme(pl))
  }

  // ---------------------------------------------------------------------------
  // Texts made of lines

  /** Joining two non-empty runs of lines puts one line end between them. */
  lemma {:induction false} LinesAppend(a: seq<string>, b: seq<string>)
    requires a != [] && b != []
    ensures Lines(a + b) == Lines(a) + "\n" + Lines(b)
  {
    if |a| == 1 {
      assert (a + b)[1..] == b;
    } else {
      assert (a + b)[1..] == a[1..] + b;
      LinesAppend(a[1..], b);
    }
  }

  /** Of three non-empty runs of lines, the middle one occurs in the text between two
      line ends. */
  lemma LinesMiddle(a: seq<string>, b: seq<string>, c: seq<string>)
    requires a != [] && b != [] && c != []
    ensures Contains(Lines(a + b + c), "\n" + Lines(b) + "\n")
  {
    LinesAppend(a + b, c);
    LinesAppend(a, b);
    assert Lines(a + b + c) == Lines(a) + ("\n" + Lines(b) + "\n") + Lines(c);
    ContainsPart(Lines(a), "\n" + Lines(b) + "\n", Lines(c));
  }

  /** Of five non-empty runs of lines, each of the inner three occurs in the text between
      two line ends. */
  lemma LinesInner(a: seq<string>, b: seq<string>, c: seq<string>, d: seq<string>, e: seq<string>)
    requires a != [] && b != [] && c != [] && d != [] && e != []
    ensures Contains(Lines(a + b + c + d + e), "\n" + Lines(b) + "\n")
    ensures Contains(Lines(a + b + c + d + e), "\n" + Lines(c) + "\n")
    ensures Contains(Lines(a + b + c + d + e), "\n" + Lines(d) + "\n")
  {
    assert a + b + c + d + e == a + b + (c + d + e);
    LinesMiddle(a, b, c + d + e);
    assert a + b + c + d + e == (a + b) + c + (d + e);
    LinesMiddle(a + b, c, d + e);
    LinesMiddle(a + b + c, d, e);
  }

  /** A text of more than one line starts with its first line and a line end. */
  lemma LinesFirst(lines: seq<string>)
    requires |lines| > 1
    ensures StartsWith(Lines(lines), lines[0] + "\n")
  {
    StartsWithAppend(lines[0] + "\n", Lines(lines[1..]));
  }

  /** A text of three lines. */
  lemma LinesOfThree(x: string, y: string, z: string)
    ensures Lines([x, y, z]) == x + "\n" + y + "\n" + z
  {
    assert [x, y, z][1..] == [y, z];
    assert [y, z][1..] == [z];
    assert Lines([z]) == z;
    assert Lines([y, z]) == y + "\n" + z;
  }

  /** A text of three lines, between line ends, has its first two lines between line
      ends. */
  lemma LinesOfThreeOpening(x: string, y: string, z: string)
    ensures Contains("\n" + Lines([x, y, z]) + "\n", "\n" + x + "\n" + y + "\n")
  {
    LinesOfThree(x, y, z);
    var opening := "\n" + x + "\n" + y + "\n";
    var t := "\n" + Lines([x, y, z]) + "\n";
    assert t == opening + (z + "\n");
    assert t[0..|opening|] == opening;
    assert OccursAt(t, opening, 0);
  }

  // ---------------------------------------------------------------------------
  // README of the Python fallback

  /** The lines before the quick-start section. */
  const PythonReadmeHead: seq<string> := [
      "# Jumperless Python Fallback",
      "",
      "This folder contains the Python source code version of Jumperless as a fallback option.",
      "",
      "## Quick Start",
      "",
      "### Option 1: Automatic Launcher (Recommended)"
    ]

  /** The Unix quick-start section: run, or double-click, `run_jumperless.sh`. */
  const ShellQuickStart: seq<string> := ["", "```bash", ShellCommand, "```", "", ShellDoubleClick]

  const ShellCommand: string := "./run_jumperless.sh"
  const ShellDoubleClick: string := "Or double-click `run_jumperless.sh` in your file manager."

  /** The Windows quick-start section: run, or double-click, `run_jumperless.bat`. */
  const BatchQuickStart: seq<string> := ["", BatchFence, BatchCommand, "```", "", BatchDoubleClick]

  const BatchFence: string := "```cmd"
  const BatchCommand: string := "run_jumperless.bat"
  const BatchDoubleClick: string := "Or double-click `run_jumperless.bat` in Windows Explorer."

  /** The lines after the quick-start section. */
  const PythonReadmeRest: seq<string> := [
      "",
      "### Option 2: Manual Python Execution",
      "",
      "1. Install Python 3.9+ from https://python.org",
      "2. Install dependencies:",
      "   ```bash",
      "   pip install -r requirements.txt",
      "   ```",
      "3. Run the application:",
      "   ```bash",
      "   python JumperlessWokwiBridge.py",
      "   ```",
      "",
      "## Requirements",
      "",
      "- Python 3.9 or higher",
      "- Dependencies listed in `requirements.txt`",
      "",
      "## Troubleshooting",
      "",
      "### Python Not Found",
      "- Make sure Python is installed and in your PATH",
      "- Try `python3` instead of `python` on Linux/macOS",
      "",
      "### Permission Denied (Linux/macOS)",
      "```bash",
      "chmod +x run_jumperless.sh",
      "./run_jumperless.sh",
      "```",
      "",
      "### Missing Dependencies",
      "```bash",
      "pip install -r requirements.txt",
      "```",
      "",
      "## Support",
      "",
      "For support, visit: https://github.com/Architeuthis-Flux/JumperlessV5",
      ""
    ]

  /** The sections `create_python_readme` adds for a platform's wrapper: the shell one
      on Linux and macOS, the batch one on Windows. */
  function QuickStart(pl: Platform): seq<string> {
    (if IsUnix(pl) then ShellQuickStart else []) + (if pl == Windows then BatchQuickStart else [])
  }

  /** The lines of `Jumperless Python/README.md`. */
  function PythonReadmeLines(pl: Platform): seq<string> {
    PythonReadmeHead + QuickStart(pl) + PythonReadmeRest
  }

  /** `Jumperless Python/README.md` */
  function PythonReadme(pl: Platform): string {
    Lines(PythonReadmeLines(pl))
  }

  /** A line that neither the head nor the rest of the Python README has. */
  predicate NotInPythonReadmeFrame(w: string) {
    w !in PythonReadmeHead && w !in PythonReadmeRest
  }

  /** The shell section's double-click line is in no other part of the Python README. */
  lemma ShellDoubleClickOnlyInShell()
    ensures NotInPythonReadmeFrame(ShellDoubleClick) && ShellDoubleClick !in BatchQuickStart
  {
  }

  /** Nor is any of the batch section's own lines: its fence, command and double-click
      line. */
  lemma BatchFenceOnlyInBatch()
    ensures NotInPythonReadmeFrame(BatchFence) && BatchFence !in ShellQuickStart
  {
  }

  lemma BatchCommandOnlyInBatch()
    ensures NotInPythonReadmeFrame(BatchCommand) && BatchCommand !in ShellQuickStart
  {
  }

  lemma BatchDoubleClickOnlyInBatch()
    ensures NotInPythonReadmeFrame(BatchDoubleClick) && BatchDoubleClick !in ShellQuickStart
  {
  }

  /** The shell section runs `./run_jumperless.sh` and the batch section runs
      `run_jumperless.bat`, the wrappers `create_python_fallback` writes. */
  lemma QuickStartCommands()
    ensures ShellCommand == "./" + ShellWrapperName
    ensures BatchCommand == BatchWrapperName
  {
  }

  /** Exactly one of the two quick-start sections is written, chosen by the platform, and
      it appears in the README as it stands: the Linux and macOS READMEs tell the user to
      run `./run_jumperless.sh`, the Windows README `run_jumperless.bat`. */
  lemma PythonReadmeQuickStart(pl: Platform)
    ensures QuickStart(pl) == (if IsUnix(pl) then ShellQuickStart else BatchQuickStart)
    ensures Contains(PythonReadme(pl), "\n" + Lines(QuickStart(pl)) + "\n")
    ensures IsUnix(pl) ==> Contains(PythonReadme(pl), "\n" + ShellCommand + "\n")
    ensures pl == Windows ==> Contains(PythonReadme(pl), "\n" + BatchCommand + "\n")
  {
    var qs := QuickStart(pl);
    LinesMiddle(PythonReadmeHead, qs, PythonReadmeRest);
    assert qs == qs[..2] + [qs[2]] + qs[3..];
    LinesMiddle(qs[..2], [qs[2]], qs[3..]);
    ContainsWithin("\n", Lines(qs), "\n", "\n" + qs[2] + "\n");
    ContainsIn(PythonReadme(pl), "\n" + Lines(qs) + "\n", "\n" + qs[2] + "\n");
  }

  /** The batch section's lines (its `cmd` fence, its command and its double-click line)
      are lines of the Python README exactly on Windows, and the shell section's
      double-click line exactly on Linux and macOS. */
  lemma PythonReadmeNamesWrapper(pl: Platform)
    ensures BatchFence in PythonReadmeLines(pl) <==> pl == Windows
    ensures BatchCommand in PythonReadmeLines(pl) <==> pl == Windows
    ensures BatchDoubleClick in PythonReadmeLines(pl) <==> pl == Windows
    ensures ShellDoubleClick in PythonReadmeLines(pl) <==> IsUnix(pl)
  {
    ShellDoubleClickOnlyInShell();
    BatchFenceOnlyInBatch();
    BatchCommandOnlyInBatch();
    BatchDoubleClickOnlyInBatch();
    if IsUnix(pl) {
      assert ShellDoubleClick == ShellQuickStart[5];
    } else {
      assert BatchFence == BatchQuickStart[1] && BatchCommand == BatchQuickStart[2];
      assert BatchDoubleClick == BatchQuickStart[5];
    }
  }

  // ---------------------------------------------------------------------------
  // README of the platform package

  /** The title line, naming the platform. */
  function PlatformTitle(pl: Platform): string {
    "# Jumperless for " + DisplayName(pl)
  }

  /** The line introducing the package. */
  function PlatformIntro(pl: Platform): string {
    "This package contains Jumperless built for " + DisplayName(pl) + "."
  }

  /** The title, the introduction and the quick-start heading. */
  function PlatformReadmeHead(pl: Platform): seq<string> {
    [PlatformTitle(pl), "", PlatformIntro(pl)] + QuickStartHeading
  }

  const QuickStartHeading: seq<string> := [
      "",
      "## Quick Start",
      "",
      "### Option 1: Native Executable (Recommended)"
    ]

  /** The native-executable quick start for each platform. */
  function NativeQuickStart(pl: Platform): seq<string> {
    match pl
    case Linux => ["", "```bash", UnixCommand, "```", "", "Or double-click the executable in your file manager."]
    case MacOS => ["", "```bash", UnixCommand, "```", "", "Or double-click the executable in Finder."]
    case Windows => ["", WindowsDoubleClick, "```cmd", WindowsCommand, "```"]
  }

  const UnixCommand: string := "./Jumperless"
  const WindowsDoubleClick: string := "Double-click `Jumperless.exe` or run from Command Prompt:"
  const WindowsCommand: string := "Jumperless.exe"

  /** The section that points to the Python fallback, and the package contents heading. */
  const FallbackSection: seq<string> := [
      "",
      "### Option 2: Python Fallback",
      "",
      "If the native executable doesn't work, use the Python fallback:",
      "",
      "1. Go to the `Jumperless Python` folder",
      "2. Follow the instructions in that folder's README.md",
      "",
      "## Package Contents",
      ""
    ]

  /** The package contents list. */
  function ContentsList(pl: Platform): seq<string> {
    [ContentsEntry(pl), FallbackEntry, "- `README.md` - This file"]
  }

  /** The first line of the package contents list, naming the executable. */
  function ContentsEntry(pl: Platform): string {
    "- `" + ExecutableName(pl) + "` - Native executable"
  }

  const FallbackEntry: string := "- `Jumperless Python/` - Python source code fallback"

  /** The system requirements, the first naming the platform. */
  function Requirements(pl: Platform): seq<string> {
    ["", "## System Requirements", "", "- " + DisplayName(pl) + " operating system"] + RequirementsRest
  }

  const RequirementsRest: seq<string> := [
      "- No additional dependencies for native executable",
      "- Python 3.9+ for Python fallback"
    ]

  /** The troubleshooting, help and licence sections. */
  const PlatformReadmeTail: seq<string> := [
      "",
      "## Troubleshooting",
      "",
      "### Native Executable Issues",
      "- Try running from terminal/command prompt to see error messages",
      "- Use the Python fallback if native executable fails",
      "",
      "### Need Help?",
      "- Visit: https://github.com/Architeuthis-Flux/JumperlessV5",
      "- Discord: https://discord.gg/TcjM5uEgb4",
      "",
      "## License",
      "",
      "See LICENSE file for details.",
      ""
    ]

  /** The lines of the package's `README.md`. */
  function PlatformReadmeLines(pl: Platform): seq<string> {
    PlatformReadmeHead(pl) + NativeQuickStart(pl) + FallbackSection + ContentsList(pl)
    + (Requirements(pl) + PlatformReadmeTail)
  }

  /** The package's `README.md` */
  function PlatformReadme(pl: Platform): string {
    Lines(PlatformReadmeLines(pl))
  }

  /** The README opens with the platform's title line and carries the platform's quick
      start and the Python-fallback section as they stand. */
  lemma PlatformReadmeSections(pl: Platform)
    ensures StartsWith(PlatformReadme(pl), PlatformTitle(pl) + "\n")
    ensures Contains(PlatformReadme(pl), "\n" + Lines(NativeQuickStart(pl)) + "\n")
    ensures Contains(PlatformReadme(pl), "\n" + Lines(FallbackSection) + "\n")
  {
    LinesFirst(PlatformReadmeLines(pl));
    LinesInner(PlatformReadmeHead(pl), NativeQuickStart(pl), FallbackSection, ContentsList(pl),
      Requirements(pl) + PlatformReadmeTail);
  }

  /** The contents list starts with the one line naming the executable, followed by the
      line for the Python fallback. */
  lemma PlatformContentsEntry(pl: Platform)
    ensures Contains(PlatformReadme(pl), "\n" + ContentsEntry(pl) + "\n" + FallbackEntry + "\n")
  {
    var list := ContentsList(pl);
    LinesInner(PlatformReadmeHead(pl), NativeQuickStart(pl), FallbackSection, list,
      Requirements(pl) + PlatformReadmeTail);
    LinesOfThreeOpening(list[0], list[1], list[2]);
    ContainsIn(PlatformReadme(pl), "\n" + Lines(list) + "\n", "\n" + list[0] + "\n" + list[1] + "\n");
  }

  /** A line that no platform-independent part of the platform README has. */
  predicate NotInPlatformFrame(w: string) {
    w !in QuickStartHeading && w !in FallbackSection && w != FallbackEntry
    && w != "- `README.md` - This file" && w !in RequirementsRest && w !in PlatformReadmeTail
    && w != "" && w != "## System Requirements"
  }

  /** A line that none of the lines of a platform's README that name the platform or its
      executable has. */
  predicate NotInPlatformLines(w: string, pl: Platform) {
    w != PlatformTitle(pl) && w != PlatformIntro(pl) && w !in NativeQuickStart(pl)
    && w != ContentsEntry(pl) && w != "- " + DisplayName(pl) + " operating system"
  }

  /** The contents entry of the Windows README names `Jumperless.exe`. */
  lemma WindowsContentsEntry()
    ensures ContentsEntry(Windows) == WindowsEntry
  {
    assert ExecutableName(Windows) == WindowsCommand;
  }

  const WindowsEntry: string := "- `" + WindowsCommand + "` - Native executable"

  /** The three lines only the Windows README has: the double-click advice and the
      command of its quick start, and its contents entry. */
  lemma WindowsDoubleClickNotInFrame()
    ensures NotInPlatformFrame(WindowsDoubleClick)
  {
  }

  lemma WindowsCommandNotInFrame()
    ensures NotInPlatformFrame(WindowsCommand)
  {
  }

  lemma WindowsEntryNotInFrame()
    ensures NotInPlatformFrame(WindowsEntry)
  {
  }

  lemma WindowsLinesNotOnLinux()
    ensures NotInPlatformLines(WindowsDoubleClick, Linux)
    ensures NotInPlatformLines(WindowsCommand, Linux)
    ensures NotInPlatformLines(WindowsEntry, Linux)
  {
  }

  lemma WindowsLinesNotOnMacos()
    ensures NotInPlatformLines(WindowsDoubleClick, MacOS)
    ensures NotInPlatformLines(WindowsCommand, MacOS)
    ensures NotInPlatformLines(WindowsEntry, MacOS)
  {
  }

  /** The Unix command `./Jumperless` is not a line the Windows README has. */
  lemma UnixCommandNotOnWindows()
    ensures NotInPlatformFrame(UnixCommand) && NotInPlatformLines(UnixCommand, Windows)
  {
  }

  /** A line is in a platform's README when it is in the part that names the platform or
      its executable, and only if it is there or in the part all platforms share. */
  lemma PlatformLinesParts(w: string, pl: Platform)
    ensures w in PlatformReadmeLines(pl) ==> !NotInPlatformFrame(w) || !NotInPlatformLines(w, pl)
    ensures w in NativeQuickStart(pl) || w == ContentsEntry(pl) ==> w in PlatformReadmeLines(pl)
  {
  }

  /** The Windows README has the three Windows-only lines. */
  lemma WindowsLinesOnWindows()
    ensures WindowsDoubleClick in PlatformReadmeLines(Windows)
    ensures WindowsCommand in PlatformReadmeLines(Windows)
    ensures WindowsEntry in PlatformReadmeLines(Windows)
  {
    WindowsContentsEntry();
    PlatformLinesParts(WindowsDoubleClick, Windows);
    PlatformLinesParts(WindowsCommand, Windows);
    PlatformLinesParts(WindowsEntry, Windows);
    assert WindowsDoubleClick == NativeQuickStart(Windows)[1] && WindowsCommand == NativeQuickStart(Windows)[3];
  }

  /** The Linux and macOS READMEs have none of them. */
  lemma WindowsLinesNotOnUnix(pl: Platform)
    requires IsUnix(pl)
    ensures WindowsDoubleClick !in PlatformReadmeLines(pl)
    ensures WindowsCommand !in PlatformReadmeLines(pl)
    ensures WindowsEntry !in PlatformReadmeLines(pl)
  {
    WindowsDoubleClickNotInFrame();
    WindowsCommandNotInFrame();
    WindowsEntryNotInFrame();
    PlatformLinesParts(WindowsDoubleClick, pl);
    PlatformLinesParts(WindowsCommand, pl);
    PlatformLinesParts(WindowsEntry, pl);
    if pl == Linux {
      WindowsLinesNotOnLinux();
    } else {
      WindowsLinesNotOnMacos();
    }
  }

  /** The Windows-only text is a line of the README exactly on Windows: the double-click
      advice for `Jumperless.exe`, the command `Jumperless.exe` and the contents entry
      "- `Jumperless.exe` - Native executable". */
  lemma PlatformReadmeWindowsOnly(pl: Platform)
    ensures WindowsDoubleClick in PlatformReadmeLines(pl) <==> pl == Windows
    ensures WindowsCommand in PlatformReadmeLines(pl) <==> pl == Windows
    ensures WindowsEntry in PlatformReadmeLines(pl) <==> pl == Windows
  {
    if pl == Windows {
      WindowsLinesOnWindows();
    } else {
      WindowsLinesNotOnUnix(pl);
    }
  }

  /** The Unix command `./Jumperless` is a line of the README exactly on Linux and
      macOS. */
  lemma PlatformReadmeUnixOnly(pl: Platform)
    ensures UnixCommand in PlatformReadmeLines(pl) <==> IsUnix(pl)
  {
    UnixCommandNotOnWindows();
    PlatformLinesParts(UnixCommand, pl);
    if IsUnix(pl) {
      assert UnixCommand == NativeQuickStart(pl)[2];
    }
  }
}
