# Jumperless release packaging, modelled in Dafny

The Jumperless desktop application ships through four Python build scripts in
`Scripts/`. This project models them and proves what they do to the working
directory.

- `create_version_info.py` resolves the release version. It tries a git tag, then
  `pyproject.toml`, then the `__version__` assignment in `JumperlessWokwiBridge.py`,
  and falls back to `1.0.0`. It normalises the version to four integer components
  and writes the Windows resource descriptor `version_info.txt` (module
  `VersionInfo`).
- `package_app.py` assembles `builds/{platform}`:
  - the native executable copied from `dist/`;
  - a `Jumperless Python` fallback folder with the bridge source, `requirements.txt`,
    `assets`, `launcher.py`, the platform's wrapper script and a README;
  - a platform README.

  On macOS it attempts a disk image through `create-dmg`. It then writes a zip and,
  on Linux and macOS, a gzip tar next to the package. The modules are
  `PackageTemplates` (names and texts), `PackageApp` (the assembly), `PackageDmg`
  (the disk image), `PackageArchives` (the archives) and `PackageMain`
  (`package_platform` and `main`).
- `smoke_test.py` checks a finished package (module `SmokeTest`).
- `setup_macos_launcher.py` replaces the app bundle's executable with a Terminal
  launcher script before signing (module `MacosLauncher`).

The filesystem is a value, `FileTree.Tree`, which maps a path to a directory or a
file (content and permission bits). Each `pathlib`/`shutil`/`os` call the scripts
make is a function on it (`FileTree`). A call either returns the new tree or fails
with an `OSError` of the corresponding kind. In four cases the kind differs from
Python's; "## Left out" lists them. The scripts run against a
`Workspaces.Workspace` object whose `tree` and `warnings` fields the methods
update in place, one library call at a time. Every script-level method is proved
against a specification of the old tree. Most specifications are functions
(`Assembled`, `Archived`, `Hacked`, `VersionInfoText`, ...). Three are relations,
because the order of `iterdir` is not modelled:
- `PackageDmg.CreateMacosDmg` is specified through `DmgEffect`;
- `PackageDmg.StageChildren` through `NoCollision`;
- `PackageMain.PackageRelease` through `ReleasePasses`.

The lemmas then state what those specifications guarantee:
- what the package holds;
- that nothing outside it changes;
- that the archives hold the package;
- that the disk image holds the package under safe names and leaves no staging
  folder;
- that on a fresh package the smoke test's structure check passes exactly when
  the build left an executable, and its fallback check exactly when the bridge
  source and `requirements.txt` existed;
- the round trips of the version normalisation and of the printed version tuple.

`PyStr` models the Python string operations the scripts rely on (`split`,
`join`, `strip`, `title` on ASCII letters, `replace`, `int()`, `str()` of an
integer).

Behaviour of the scripts a reader may not expect, which the model keeps:
- `int()` accepts a sign, so a version such as `1.-2.0` gives a negative
  component.
- A version component that is not an integer raises `ValueError`, so
  `create_version_info` stops without writing (`ComponentNotInteger`); no
  four-part version is produced then.
- The DMG step catches `CalledProcessError` and `FileNotFoundError` anywhere
  inside it: in the `create-dmg --version` probe and in `create_macos_dmg`. Any
  other `OSError` escapes and ends `package_app.py` with status 1. The staging copy
  in the model cannot raise `FileNotFoundError`, because there are no symlinks and
  nothing deletes files concurrently. So every `OSError` it can raise escapes. One
  example is two folders whose names differ only by space versus underscore. The
  probe also has no timeout.
- The archive stem uses `str.title()`, so macOS archives are
  `Jumperless-Macos.zip` and `Jumperless-Macos.tar.gz`, not "macOS".

## Model

| member | source | states |
|---|---|---|
| Workspaces.Workspace.Perform | Scripts/package_app.py:22-23 | a library call on the current tree: on success the tree becomes its result, on an `OSError` the tree is left as it was and the status records the error |
| Workspaces.Workspace.Warn | Scripts/package_app.py:286 | a printed warning is appended to the warnings and the tree is unchanged |
| Workspaces.Workspace.MakeDirs | Scripts/package_app.py:271-272 | `mkdir(parents=True)` changes the tree exactly as `FileTree.MakeDirs` says, or reports its error |
| Workspaces.Workspace.MakeDir | Scripts/package_app.py:469-470 | `mkdir(exist_ok=...)` changes the tree exactly as `FileTree.MakeDir` says |
| Workspaces.Workspace.WriteFile | Scripts/create_version_info.py:111-112 | writing a file changes the tree exactly as `FileTree.WriteFile` says |
| Workspaces.Workspace.Chmod | Scripts/package_app.py:154 | `os.chmod` changes the tree exactly as `FileTree.Chmod` says |
| Workspaces.Workspace.CopyFile | Scripts/package_app.py:281 | `shutil.copy2` changes the tree exactly as `FileTree.CopyFile` says |
| Workspaces.Workspace.CopyTree | Scripts/package_app.py:35 | `shutil.copytree` changes the tree exactly as `FileTree.CopyTree` says |
| Workspaces.Workspace.Unlink | Scripts/setup_macos_launcher.py:32-33 | `unlink` changes the tree exactly as `FileTree.Unlink` says |
| Workspaces.Workspace.Move | Scripts/setup_macos_launcher.py:34 | `shutil.move` changes the tree exactly as `FileTree.Move` says |
| Workspaces.Workspace.RemoveTree | Scripts/package_app.py:316-317 | `shutil.rmtree` changes the tree exactly as `FileTree.RemoveTree` says |
| FileTree.MakeDirsEffect | Scripts/package_app.py:22-23 | `mkdir(parents=True)` succeeds exactly when no prefix of the path is a file (and, without `exist_ok`, the path is new); afterwards every prefix is a directory and nothing else changed |
| FileTree.MakeDirsMakes | Scripts/package_app.py:271-272 | after a successful `mkdir(parents=True)` the path is a directory |
| FileTree.CopyTreeFrame | Scripts/package_app.py:34-35 | `copytree` changes nothing outside the destination, its ancestors and its descendants |
| FileTree.CopyTreeCopies | Scripts/package_app.py:34-35 | after `copytree` every entry below the source is at the same relative place below the destination |
| FileTree.Subtree | Scripts/package_app.py:326 | the subtree holds exactly the entries at or below the root, under their relative paths |
| FileTree.Graft | Scripts/package_app.py:326 | every entry of the subtree lands at the destination plus its relative path, and nothing lands elsewhere |
| FileTree.Without | Scripts/package_app.py:347-348 | `rmtree` removes exactly the entries at or below the path and keeps the rest unchanged |
| FileTree.FilesBelow | Scripts/package_app.py:443-446 | `os.walk` reports exactly the files below the root, under their relative paths |
| FileTree.Prefixes | Scripts/package_app.py:272 | the directories `mkdir(parents=True)` makes are exactly the nonempty prefixes of the path |
| FileTree.SubtreeKept | Scripts/package_app.py:453 | trees that agree at and below a root give the same subtree there |
| FileTree.AncestorIsDir | Scripts/setup_macos_launcher.py:23-27 | in a well-formed tree every proper ancestor of an entry is a directory |
| FileTree.FileIsLeaf | Scripts/setup_macos_launcher.py:34 | in a well-formed tree nothing is below a file |
| FileTree.FreshFromWellFormed | Scripts/package_app.py:271-272 | in a well-formed tree a missing path has nothing below it |
| FileTree.MakeDirsWellFormed | Scripts/package_app.py:272 | `mkdir(parents=True)` keeps the tree well-formed |
| FileTree.MakeDirWellFormed | Scripts/package_app.py:470 | `mkdir` keeps the tree well-formed |
| FileTree.WriteFileWellFormed | Scripts/package_app.py:116-117 | writing a file keeps the tree well-formed |
| FileTree.ChmodWellFormed | Scripts/package_app.py:154 | `chmod` keeps the tree well-formed |
| FileTree.CopyFileWellFormed | Scripts/package_app.py:281 | `copy2` keeps the tree well-formed |
| FileTree.CopyTreeWellFormed | Scripts/package_app.py:35 | `copytree` keeps the tree well-formed |
| FileTree.GraftKeepsWellFormed | Scripts/package_app.py:35 | copying a subtree onto a directory without a clash of kinds keeps the tree well-formed |
| FileTree.RemoveTreeWellFormed | Scripts/package_app.py:317 | `rmtree` keeps the tree well-formed |
| PyStr.ToUpper | Scripts/package_app.py:441 | upper-casing keeps a character's casedness, upper-cases cased characters and leaves others alone |
| PyStr.ToLower | Scripts/package_app.py:441 | lower-casing keeps casedness, lower-cases cased characters and leaves others alone |
| PyStr.ReplaceCharMeaning | Scripts/package_app.py:325 | `replace(" ", "_")` replaces every space and changes no other character |
| PyStr.ReplaceCharEffect | Scripts/package_app.py:325 | after the replacement no space is left, and a name without spaces is unchanged |
| PyStr.StripMeaning | Scripts/create_version_info.py:19 | `strip()` gives a slice of the text that neither starts nor ends with whitespace, with only whitespace outside it |
| PyStr.LStripMeaning | Scripts/create_version_info.py:19 | `lstrip()` drops exactly the leading whitespace |
| PyStr.RStripMeaning | Scripts/create_version_info.py:19 | `rstrip()` drops exactly the trailing whitespace |
| PyStr.StripTrimmed | Scripts/create_version_info.py:19 | text without whitespace at either end is unchanged by `strip()` |
| PyStr.Split | Scripts/create_version_info.py:53 | `split('.')` gives at least one part and no part holds the separator |
| PyStr.JoinSplit | Scripts/create_version_info.py:53 | joining the parts of a split gives back the text |
| PyStr.SplitJoin | Scripts/create_version_info.py:53 | splitting a join of separator-free parts gives back the parts |
| PyStr.IndexOf | Scripts/create_version_info.py:53 | the position found holds the character and no earlier position does |
| PyStr.TitleFrom | Scripts/package_app.py:441 | `title()` keeps the length and casedness of every character and leaves uncased characters alone |
| PyStr.TitleIdempotent | Scripts/package_app.py:441 | `title()` applied twice equals `title()` applied once |
| PyStr.TitleWord | Scripts/package_app.py:441 | `title()` of a word of letters upper-cases its first letter and lower-cases the rest |
| PyStr.NatRepr | Scripts/create_version_info.py:69-70 | `str(n)` is nonempty, all digits, with no leading zero |
| PyStr.NatReprValue | Scripts/create_version_info.py:69-70 | the digits of `str(n)` have the value `n` |
| PyStr.ParseSignedRun | Scripts/create_version_info.py:59 | `int()` reads a digit run with an optional sign as its value, negative after `-` |
| PyStr.IntReprRoundTrip | Scripts/create_version_info.py:59-70 | `int(str(n)) == n` for every integer |
| PyStr.ParseIntIgnoresLeadingSpace | Scripts/create_version_info.py:59 | leading whitespace does not change what `int()` reads |
| VersionInfo.SkipSpaces | Scripts/create_version_info.py:40 | `\s*` stops at the first non-whitespace character after a run of whitespace |
| VersionInfo.QuoteEnd | Scripts/create_version_info.py:40 | `[^'"]*` stops at the first quote or at the end |
| VersionInfo.MatchAtSound | Scripts/create_version_info.py:40 | what the matcher captures at a position is a match of `__version__\s*=\s*['"]([^'"]*)['"]` there |
| VersionInfo.MatchAtComplete | Scripts/create_version_info.py:40 | every match of the pattern at a position is the one the matcher finds |
| VersionInfo.SearchMeaning | Scripts/create_version_info.py:40-42 | `re.search` returns the capture at the leftmost matching position, and nothing only when no position matches |
| VersionInfo.SearchFinds | Scripts/create_version_info.py:40-42 | a successful search names its position: no earlier position matches |
| VersionInfo.SearchMisses | Scripts/create_version_info.py:41 | a failed search means no position matches |
| VersionInfo.GitTagWins | Scripts/create_version_info.py:14-22 | a zero-exit `git describe` wins over every other source; the result is the stripped output with one leading `v` removed |
| VersionInfo.GitFailureFallsThrough | Scripts/create_version_info.py:18-24 | a non-zero git exit status has the same result as no git at all |
| VersionInfo.PyprojectShadowsSource | Scripts/create_version_info.py:26-31 | once `pyproject.toml` loads with a table (or no) `project` entry, its `version` (or "1.0.0") is the result and the bridge source is not read |
| VersionInfo.PyprojectNonTableFallsThrough | Scripts/create_version_info.py:31-33 | a non-table `project` entry raises inside the step, which then has the same result as a missing `pyproject.toml` |
| VersionInfo.SourceStep | Scripts/create_version_info.py:35-47 | without git and pyproject the result is the first `__version__` capture of the bridge source, or "1.0.0" |
| VersionInfo.NonTextOnlyFromPyproject | Scripts/create_version_info.py:31 | a non-string version can only come from a non-string `version` value in `pyproject.toml` |
| VersionInfo.NoSources | Scripts/create_version_info.py:46-47 | with no source the version is "1.0.0" |
| VersionInfo.Padded | Scripts/create_version_info.py:56-57 | the padded parts number at least four |
| VersionInfo.ParseAllMeaning | Scripts/create_version_info.py:59 | `int()` of every part succeeds exactly when each part is an integer, giving their values in order |
| VersionInfo.ParseAllOf | Scripts/create_version_info.py:59 | printed integers parse back to the integers |
| VersionInfo.NormaliseVersion | Scripts/create_version_info.py:53-59 | the `while` padding loop followed by `int()` of the first four parts computes `VersionTuple` |
| VersionInfo.VersionTupleShape | Scripts/create_version_info.py:53-59 | the tuple has four components: the first `min(n,4)` are the parsed parts in order and the rest are 0; it is absent exactly when one of those parts is not an integer |
| VersionInfo.DefaultVersionTuple | Scripts/create_version_info.py:47-59 | the default "1.0.0" normalises to (1, 0, 0, 0) |
| VersionInfo.ThreePartVersion | Scripts/create_version_info.py:56-59 | a three-component version is padded with one zero |
| VersionInfo.DottedVersionRoundTrip | Scripts/create_version_info.py:53-59 | up to four integers joined with '.' normalise back to themselves followed by zeros |
| VersionInfo.TupleReprRoundTrip | Scripts/create_version_info.py:69-70 | the printed version tuple, e.g. "(1, 0, 0, 0)", reads back as the tuple |
| VersionInfo.ReprPartParses | Scripts/create_version_info.py:69-70 | each comma-separated piece of the printed tuple parses as its component |
| VersionInfo.DescriptorFields | Scripts/create_version_info.py:61-108 | the descriptor has 48 lines; `filevers` and `prodvers` carry the printed tuple, and `FileVersion` and `ProductVersion` carry the version string |
| VersionInfo.DescriptorFixedLines | Scripts/create_version_info.py:61-108 | only those four lines depend on the version |
| VersionInfo.CreateVersionInfo | Scripts/create_version_info.py:49-114 | writes the descriptor of the resolved and normalised version to `version_info.txt`; the `Success` value is the version that the closing message prints (the function itself returns `None`); a non-string version or a non-integer component stops before writing, and a failed write is reported |
| PackageTemplates.ExecutableNameSuffix | Scripts/package_app.py:275-277 | the executable is "Jumperless", with ".exe" exactly on Windows |
| PackageTemplates.ArchiveStemOf | Scripts/package_app.py:441 | the archive stems are "Jumperless-Linux", "Jumperless-Macos" and "Jumperless-Windows" |
| PackageTemplates.FirstAvailable | Scripts/package_app.py:128-133 | the wrapper's pick is an available command, and there is none exactly when no candidate is available |
| PackageTemplates.FirstAvailableIsFirst | Scripts/package_app.py:128-133 | the pick is the earliest available candidate in the `for` list |
| PackageTemplates.WrapperChoosesFirst | Scripts/package_app.py:128-140 | a wrapper run exits 1 exactly when no candidate is available, and otherwise launches the earliest available candidate of its platform's list |
| PackageTemplates.WrapperPrefersFirstCandidate | Scripts/package_app.py:128-133 | `python3` (on Windows `python.exe`) is used whenever it is available |
| PackageTemplates.QuickStartCommands | Scripts/package_app.py:205-221 | the quick-start commands are `./run_jumperless.sh` and `run_jumperless.bat`, the names of the wrappers the fallback writes |
| PackageTemplates.PythonReadmeQuickStart | Scripts/package_app.py:205-221 | the README carries the shell quick start on Linux and macOS and the batch one on Windows, so it names the wrapper written for that platform |
| PackageTemplates.PythonReadmeNamesWrapper | Scripts/package_app.py:205-221 | the `cmd` fence, `run_jumperless.bat` and its double-click advice are lines of the README exactly on Windows, and the shell double-click advice exactly on Linux and macOS |
| PackageTemplates.PlatformReadmeSections | Scripts/package_app.py:359-399 | the platform README opens with the platform's title line and carries that platform's quick start and the Python-fallback section |
| PackageTemplates.PlatformContentsEntry | Scripts/package_app.py:400-404 | the contents list names the executable under its platform name, followed by the Python-fallback entry |
| PackageTemplates.PlatformReadmeWindowsOnly | Scripts/package_app.py:384-390 | the double-click advice for `Jumperless.exe`, the command `Jumperless.exe` and its contents entry are lines of the README exactly on Windows |
| PackageTemplates.PlatformReadmeUnixOnly | Scripts/package_app.py:368-383 | the command `./Jumperless` is a line of the README exactly on Linux and macOS |
| PackageApp.CreateLauncherScripts | Scripts/package_app.py:45-191 | the three writes, with the `chmod`, change the tree exactly as `LauncherScripts` says, or report the error |
| PackageApp.LauncherScriptsEffect | Scripts/package_app.py:114-191 | `launcher.py` is always written; `run_jumperless.sh` with mode 0o755 exactly on Linux and macOS; `run_jumperless.bat` exactly on Windows; nothing else changes |
| PackageApp.CopyFileIfPresent | Scripts/package_app.py:26-31 | `copy2` is performed exactly when the source exists, as `CopyIfPresent` says |
| PackageApp.CreatePythonFallback | Scripts/package_app.py:18-43 | the fallback steps change the tree exactly as `PythonFallback` says, and print nothing |
| PackageApp.CopiedIntoFallback | Scripts/package_app.py:26-31 | an existing source is copied into the fallback folder under its own name, and a missing one changes nothing |
| PackageApp.FallbackFilesEffect | Scripts/package_app.py:25-31 | the bridge source and `requirements.txt` are in the fallback folder exactly when they exist, unchanged |
| PackageApp.CopiedAssets | Scripts/package_app.py:33-35 | when `assets` exists, every entry below it is copied below `assets` in the fallback folder |
| PackageApp.FallbackSourcesEffect | Scripts/package_app.py:22-35 | the copied sources are in the fallback folder exactly when they exist; a missing one leaves its place untouched, and nothing outside the fallback folder changes |
| PackageApp.FallbackDocsEffect | Scripts/package_app.py:37-41 | the scripts are written as `LauncherScriptsEffect` says, `README.md` holds the fallback README, and nothing else changes |
| PackageApp.PythonFallbackDocs | Scripts/package_app.py:18-43 | the fallback folder holds `launcher.py`, `README.md` and the platform's wrapper with the given texts |
| PackageApp.PythonFallbackSources | Scripts/package_app.py:18-43 | the fallback folder holds the sources that existed, and nothing outside it (or on the way to it) changes |
| PackageApp.CopyExecutable | Scripts/package_app.py:274-286 | changes the tree exactly as `ExecutableCopied` says, and warns exactly as `ExecutableWarnings` says |
| PackageApp.ExecutableCopiedEffect | Scripts/package_app.py:279-286 | the built executable is copied into the platform directory with mode 0o755 except on Windows; without a build nothing changes |
| PackageApp.AssemblePlatform | Scripts/package_app.py:267-292 | `package_platform` up to the DMG changes the tree exactly as `Assembled` says, with the warnings of `AssemblyWarnings` |
| PackageApp.PackageLayout | Scripts/package_app.py:267-292 | in a fresh platform directory: `README.md` holds the platform README; the executable is there exactly when the build left one, with mode 0o755 except on Windows; the fallback folder is laid out completely; nothing outside the platform directory and its parents changes |
| PackageApp.FallbackInFresh | Scripts/package_app.py:289 | the fallback made where nothing was yet has the layout `FallbackLayout` describes |
| PackageApp.ExecutableInFresh | Scripts/package_app.py:274-286 | in a fresh platform directory the executable is present exactly when the build left one |
| PackageApp.MadePlatformDir | Scripts/package_app.py:271-272 | making a fresh platform directory leaves it an empty directory and changes only its prefixes |
| PackageApp.AssemblyWarnsOfMissingExecutable | Scripts/package_app.py:280-286 | the assembly warns exactly when the build left no executable |
| PackageApp.BuildOutsideOutput | Scripts/package_app.py:279 | the built executable under `dist/` is apart from the package being written |
| PackageApp.AssembledWellFormed | Scripts/package_app.py:267-292 | assembling a package keeps a well-formed tree well-formed |
| PackageApp.AssembledHasDir | Scripts/package_app.py:271-272 | after the assembly the platform directory is a directory |
| PackageDmg.Children | Scripts/package_app.py:322 | `iterdir()` yields exactly the names of the directory's entries |
| PackageDmg.StageChild | Scripts/package_app.py:322-328 | one turn of the copy loop either stages the child under its safe name or raises `FileExistsError`/`IsADirectoryError` exactly on a name collision, leaving the tree unchanged |
| PackageDmg.StageChildren | Scripts/package_app.py:320-328 | the `iterdir` loop ends normally exactly when no two children get the same staged name, and then the staging directory holds every child (folders under their names with spaces replaced, files as they are); otherwise a copy raises `FileExistsError` or `IsADirectoryError` |
| PackageDmg.BuildAndClean | Scripts/package_app.py:330-348 | `create-dmg` writes the image of the staged entries, or a warning is printed when it fails; then the staging directory is removed |
| PackageDmg.CreateMacosDmg | Scripts/package_app.py:308-348 | a file at `temp_dmg_{arch}` makes `rmtree` raise with nothing changed; a collision of staged names raises after the staging directory is removed; otherwise the image holds exactly the staged package, the `.dmg` is written as `create-dmg` allows, and the staging directory is removed |
| PackageDmg.TryCreateMacosDmg | Scripts/package_app.py:300-306 | without a working `create-dmg` only the warning is printed; otherwise `create_macos_dmg` runs |
| PackageDmg.ImageUnique | Scripts/package_app.py:320-328 | without a name collision the staged image is determined completely by the package |
| PackageDmg.ImageFolderNames | Scripts/package_app.py:323-326 | no top-level folder of the image has a space in its name |
| PackageDmg.ImageTopFiles | Scripts/package_app.py:327-328 | every top-level file of the image is the package's file of the same name, unchanged |
| PackageDmg.ImageFolderContents | Scripts/package_app.py:323-326 | everything below a package folder is in the image below the folder's safe name, unchanged |
| PackageDmg.DmgLeavesNoStaging | Scripts/package_app.py:345-348 | afterwards nothing is at or below `temp_dmg_{arch}` |
| PackageDmg.DmgKeepsOthers | Scripts/package_app.py:308-348 | apart from the staging directory and the `.dmg`, the working directory is as it was, the package included |
| PackageDmg.DmgWrittenIff | Scripts/package_app.py:330-344 | the `.dmg` holds the image with volume "Jumperless", window 600x400 and icon size 100, and no warning is printed, exactly when `create-dmg` succeeds; otherwise the `.dmg` path is unchanged and one warning is printed |
| PackageArchives.ZipEntries | Scripts/package_app.py:440-447 | the zip holds exactly the files below the platform directory, under their relative paths, unchanged |
| PackageArchives.CollectZipEntries | Scripts/package_app.py:443-447 | the nested `os.walk` loops add exactly the entries `ZipEntries` describes |
| PackageArchives.CreateArchives | Scripts/package_app.py:431-455 | changes the tree exactly as `Archived` says, warning when there is no platform directory |
| PackageArchives.NoPackageNoArchives | Scripts/package_app.py:435-438 | without a platform directory nothing is written and the warning is printed |
| PackageArchives.ArchivesFrame | Scripts/package_app.py:440-453 | only the zip path and, on Linux and macOS, the tar path change |
| PackageArchives.ZipContents | Scripts/package_app.py:440-447 | the zip at `Jumperless-{Platform}.zip` holds exactly the package's files |
| PackageArchives.TarContents | Scripts/package_app.py:449-453 | on Linux and macOS the tar holds the package directory and everything below it under `Jumperless-{Platform}`; on Windows no tar is written |
| PackageArchives.ArchivesKeepPackage | Scripts/package_app.py:431-455 | writing the archives leaves the platform directory as it was |
| PackageArchives.ArchivedWellFormed | Scripts/package_app.py:431-455 | writing the archives keeps a well-formed tree well-formed |
| PackageArchives.ArchivesHoldAfter | Scripts/package_app.py:431-455 | after `create_archives` on an existing package, the archives hold the package as it now is |
| PackageArchives.ZipEntriesKept | Scripts/package_app.py:443-447 | trees that agree at and below the package give the same zip entries |
| PackageArchives.ArchivedOutcome | Scripts/package_app.py:435-453 | `create_archives` gets through exactly when there is no package, or else the zip path is no directory, the output directory exists and, on Linux and macOS, the tar path is no directory; each failure gives the error Python raises |
| PackageArchives.ArchivedSucceeds | Scripts/package_app.py:440-453 | with an existing package and output directory and no directory at the archive paths, `create_archives` gets through |
| PackageArchives.ArchivedAgree | Scripts/package_app.py:431-455 | whether `create_archives` gets through depends only on the package, the output directory and the archive paths |
| FileTree.WriteStatus | Scripts/package_app.py:442 | opening a file for writing succeeds exactly when the path is no directory and its parent is a directory; otherwise it fails with `IsADirectory` for a directory at the path, else with `FileNotFound` |
| FileTree.WriteAgrees | Scripts/package_app.py:442 | whether a write succeeds, and its error, depend only on the path and its parent |
| PackageMain.PackagePlatform | Scripts/package_app.py:267-298 | `package_platform`: the assembly as `Assembled` says, then on macOS the DMG step; when it gets through, the platform directory is still as assembled |
| PackageMain.PackageApartFromDmg | Scripts/package_app.py:312-318 | nothing in `builds/{platform}` is the staging directory or the `.dmg` |
| PackageMain.DmgDoneKeeps | Scripts/package_app.py:294-296 | a DMG step that gets through keeps everything outside the staging directory and the `.dmg` |
| PackageMain.PackageAndArchive | Scripts/package_app.py:473-476 | the two calls get through exactly when the assembly does, the DMG step finds no staging file and no name collision, and the archives can be written; an assembly error ends the run with it, and after a DMG step that gets through the outcome is that of `create_archives` on the assembled tree; when both get through, the package is as assembled and the archives hold it |
| PackageMain.DmgKeepsArchivePlaces | Scripts/package_app.py:294-296 | a DMG step that gets through leaves `create_archives` with the outcome it would have had on the assembled tree |
| PackageMain.ReleaseSucceeds | Scripts/package_app.py:457-484 | with the sources of the right kinds, no file `builds`, no platform directory yet, no directory at the archive paths and, for a macOS DMG, no file at the staging path, the run exits 0 |
| PackageMain.KeptPackageExists | Scripts/package_app.py:435-436 | the package directory still exists when `create_archives` looks for it |
| PackageMain.PackageRelease | Scripts/package_app.py:457-484 | exit status 0 exactly when `mkdir`, the assembly, the DMG step's preconditions and the archives all get through, and 1 when an `OSError` escapes; an existing file `builds` fails at once; a run that gets through leaves the package as assembled, with archives holding it |
| SmokeTest.TestExecutable | Scripts/smoke_test.py:14-45 | a missing executable fails; otherwise exit status 0 or a timeout passes and anything else fails |
| SmokeTest.TestPythonFallback | Scripts/smoke_test.py:47-88 | the check passes exactly when the folder, the four required files and the platform's wrapper exist, and on Linux and macOS the wrapper is executable |
| SmokeTest.TestPackageStructure | Scripts/smoke_test.py:90-121 | the check passes exactly when the platform directory, its README, its executable and the fallback folder exist |
| SmokeTest.SmokeStatus | Scripts/smoke_test.py:136-166 | the status is 0 exactly when all three checks pass, and otherwise 1; it is 1 when the structure check fails |
| SmokeTest.RunSmokeTests | Scripts/smoke_test.py:123-166 | `main` returns the status `SmokeStatus` gives for the tree |
| SmokeTest.PackagePassesChecks | Scripts/smoke_test.py:90-121 | on what a packaging run leaves in a fresh `builds/{platform}`: the structure check passes exactly when the build left an executable, and the fallback check exactly when the bridge source and `requirements.txt` existed |
| MacosLauncher.SetupLauncherHack | Scripts/setup_macos_launcher.py:11-72 | without the app bundle or the executable it warns, returns `False` and changes nothing; otherwise it changes the tree as `Hacked` says and returns `True` exactly when no `OSError` escapes |
| MacosLauncher.RunHackScript | Scripts/setup_macos_launcher.py:74-80 | exit status 0 exactly when the hack applies and succeeds, otherwise 1 |
| MacosLauncher.HackFailsOnCliDirectory | Scripts/setup_macos_launcher.py:32-33 | a directory at `Jumperless_cli` cannot be unlinked, so the hack raises |
| MacosLauncher.HackEffect | Scripts/setup_macos_launcher.py:31-72 | `Jumperless_cli` holds the original executable with its content and mode, `Jumperless` holds the launcher script with mode 0o755, and nothing else changes |
| MacosLauncher.MoveLeaf | Scripts/setup_macos_launcher.py:34 | moving an entry with nothing below it onto a new path renames that one entry |

## Left out

- External programs are parameters:
  - the `git describe` run (`GitRun`);
  - the parsed `pyproject.toml` (`PyValue`);
  - whether `create-dmg` is installed and whether it succeeds (`DmgTool`);
  - how the smoke test's `--help` run ends (`RunOutcome`).

  Their own behaviour, the 30-second timeout and the captured output are not modelled.
- What the generated scripts do when they run (`launcher.py`, the wrappers, the
  macOS launcher script) is not modelled. Only their text is modelled, plus the
  interpreter search of the wrappers (`PackageTemplates.RunWrapper`).
- The texts the packaging writes are passed in as `Documents` (the source's texts
  are `PackageTemplates.DocumentsFor`), and the macOS launcher script as a string
  (the source's text is `MacosLauncher.LauncherScript`). The proofs hold for any
  texts.
- Archive and disk-image formats: zip, tar.gz and DMG contents are maps from the
  path inside the archive to the entry. Compression, metadata and the order of
  `os.walk` are not modelled.
- Permission bits:
  - directories are assumed searchable;
  - a new file is assumed to get 0o644 (umask 022);
  - `os.access(X_OK)` is the owner-execute bit.
- `print` output is not modelled, except for the warnings the scripts print and
  carry on from (`FileTree.Warning`). `argparse` becomes the `Platform` and `Arch`
  enumerations.
- After an escaping `OSError` the specification functions (`Assembled`,
  `Archived`, `Hacked`, ...) give only the error. The method contracts do not
  describe the partly written tree that Python leaves behind, except in the DMG
  step.
- PackageDmg.StageChildren: `iterdir` order is not modelled. The loop takes the
  children in any order, and the contract holds for every order. With a
  collision, which child raises depends on the order, and the contract does not
  say which.
- PackageApp.PackageLayout: stated for a platform directory with nothing in it yet,
  in a tree whose output directory is apart from the copied sources. Re-packaging
  into an existing directory keeps older files, which this lemma does not describe.
- PackageMain.PackagePlatform: requires a well-formed tree (every entry's parent is
  a directory), which a real filesystem always is.
- MacosLauncher.HackEffect: stated only when the bundle's executable is a file and
  `Jumperless_cli` is not a directory. A directory executable is left to `Hacked`,
  and a directory at `Jumperless_cli` is covered by `HackFailsOnCliDirectory`.
- FileTree.CopyTree: models `copytree` without symlinks, copy functions or ignore
  patterns, and it is stricter than `copytree` where an entry already exists at the
  destination (`dirs_exist_ok=True`):
  - a file copied onto an existing directory fails with `FileExists` in the model,
    while `copy2` copies the file into that directory and goes on. Packaging again
    into an existing `builds/{platform}` can reach this case;
  - a directory copied onto an existing file copies nothing in the model, while
    `copytree` copies the other entries and then raises `shutil.Error`.

  `FileTree.Move` models only a move onto a path with no entry, which is the only
  way the scripts use it.
- PyStr.ParseInt: accepts the ASCII digits `0`-`9` only, with an optional sign and
  surrounding whitespace, and a single `_` between digits as Python does. Python's
  `int()` also accepts other Unicode decimal digits (for example the fullwidth `１`),
  so such a version component is `ComponentNotInteger` in the model but a number in
  Python.
- PyStr.ToUpper, PyStr.ToLower, PyStr.TitleFrom: ASCII letters only. Other
  characters count as uncased and are kept. Python cases non-ASCII letters too:
  `"éa".title()` is `"Éa"`, where the model gives `"éA"`, and `"ß".title()` is
  `"Ss"`, which changes the length. Only the platform names `linux`, `macos` and
  `windows` reach `title()` in the scripts, so the packaging output is the same.
- PackageTemplates.PythonReadmeNamesWrapper, PackageTemplates.PlatformReadmeWindowsOnly
  and PackageTemplates.PlatformReadmeUnixOnly: state which lines the README has, one
  line at a time. They do not state that a platform's wrapper or executable name is
  absent from the other platforms' texts as a substring.
- PackageMain.ReleaseSucceeds: covers a run into a `builds` without the platform
  directory. Packaging again into an existing `builds/{platform}` is described by
  `ReleasePasses`, but no lemma gives conditions under which it succeeds.
- PackageMain.PackageAndArchive: with a name collision in the DMG step the error is
  `FileExists` or `IsADirectory`, and which one is not stated, since it depends on the
  order of `iterdir`.
- Error kinds that differ from Python's. None of them reaches an `except` that
  tells error classes apart:
  - `FileTree.WriteFile` under a parent that is a file gives `FileNotFound`; Python
    raises `NotADirectoryError`.
  - `FileTree.MakeDir` under a parent that is a file gives `FileNotFound`; Python
    raises `NotADirectoryError`.
  - `FileTree.MakeDirs` with a file on a proper prefix gives `FileExists`; Python
    raises `NotADirectoryError`.
  - `FileTree.Unlink` of a directory gives `IsADirectory`; on macOS Python raises
    `PermissionError`.
- Line endings: on Windows a text-mode `open(..., 'w')` stores `"\r\n"` for each
  `"\n"`. This affects `version_info.txt`, the READMEs, `launcher.py` and
  `run_jumperless.bat`. The model stores the text as given; nothing in the
  scripts depends on the stored line endings.
- `Path.iterdir` on a missing directory is not modelled. The DMG step is reached
  only after the package directory has been made.
- `create_combined_readme.py` is not part of this model. It merges README files for
  a combined release and is not part of the packaging run modelled here.
