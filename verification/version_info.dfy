/**
 * Scripts/create_version_info.py: the release version is taken from the first of
 * four sources that yields one (git tag, pyproject.toml, the `__version__` assignment
 * in the bridge's source, the default "1.0.0"), normalised to a four-part integer tuple,
 * and written into the Windows version-resource descriptor `version_info.txt`.
 * The external sources are inputs: what `git describe` returned, what `toml.load`
 * parsed, what the bridge source file holds.
 */
module VersionInfo {
  import opened Wrappers
  import opened PyStr
  import opened FileTree
  import opened Workspaces

  // ---------------------------------------------------------------------------
  // The sources

  /** A value as `toml.load` returns it: a string, a table, or anything else. */
  datatype PyValue = Str(s: string) | Table(entries: map<string, PyValue>) | OtherValue

  /** What `git describe --tags --abbrev=0` returned. */
  datatype GitRun = GitRun(returncode: int, stdout: string)

  /** The three sources; `None` stands for a step whose `try` block raised
      (git not installed, `toml` missing or the file unreadable, the bridge source absent). */
  datatype Sources = Sources(
    git: Option<GitRun>,
    pyproject: Option<map<string, PyValue>>,
    bridgeSource: Option<string>)

  const DefaultVersion: string := "1.0.0"

  /** One leading `v` removed, if there is one. */
  function DropV(tag: string): string {
    if StartsWith(tag, "v") then tag[1..] else tag
  }

  /** Step 1: the stripped tag, without its `v`, when git exited with 0. */
  function FromGit(git: Option<GitRun>): Option<PyValue> {
    if git.None? || git.value.returncode != 0 then None
    else Some(Str(DropV(Strip(git.value.stdout))))
  }

  /** Step 2: `data.get('project', {}).get('version', '1.0.0')`; calling `.get` on a
      `project` entry that is not a table raises, which the step swallows. */
  function FromPyproject(data: Option<map<string, PyValue>>): Option<PyValue> {
    if data.None? then None
    else
      var project := if "project" in data.value then data.value["project"] else Table(map[]);
      if !project.Table? then None
      else if "version" in project.entries then Some(project.entries["version"])
      else Some(Str(DefaultVersion))
  }

  // Step 3: re.search(r'__version__\s*=\s*[\'"]([^\'"]*)[\'"]', content)

  const VersionName: string := "__version__"

  predicate IsQuote(c: char) {
    c == '\'' || c == '"'
  }

  /** The end of the run of whitespace that starts at `i` (what a greedy `\s*` takes). */
  function SkipSpaces(s: string, i: nat): (j: nat)
    requires i <= |s|
    ensures i <= j <= |s|
    ensures forall k :: i <= k < j ==> IsSpace(s[k])
    ensures j == |s| || !IsSpace(s[j])
    decreases |s| - i
  {
    if i < |s| && IsSpace(s[i]) then SkipSpaces(s, i + 1) else i
  }

  /** The position of the first quote at or after `i`, or `|s|` (what `[^'"]*` takes). */
  function QuoteEnd(s: string, i: nat): (j: nat)
    requires i <= |s|
    ensures i <= j <= |s|
    ensures forall k :: i <= k < j ==> !IsQuote(s[k])
    ensures j == |s| || IsQuote(s[j])
    decreases |s| - i
  {
    if i < |s| && !IsQuote(s[i]) then QuoteEnd(s, i + 1) else i
  }

  /** The captured group of a match of the pattern starting exactly at `i`. Each part of
      the pattern can match in one way only (whitespace is neither `=` nor a quote, and the
      capture must stop at the first quote), so no backtracking is needed. */
  function MatchAt(s: string, i: nat): Option<string>
    requires i <= |s|
  {
    if !(i + |VersionName| <= |s| && s[i..i + |VersionName|] == VersionName) then None
    else
      var j := SkipSpaces(s, i + |VersionName|);
      if j == |s| || s[j] != '=' then None
      else
        var k := SkipSpaces(s, j + 1);
        if k == |s| || !IsQuote(s[k]) then None
        else
          var e := QuoteEnd(s, k + 1);
          if e == |s| then None else Some(s[k + 1..e])
  }

  /** The pattern, stated directly: at `i` come `__version__`, `a` whitespace characters,
      `=`, `b` whitespace characters, a quote, the quote-free `v`, and a quote. */
  predicate PatternAt(s: string, i: nat, a: nat, b: nat, v: string) {
    var eq := i + |VersionName| + a;
    var open := eq + 1 + b;
    && open + 1 + |v| < |s|
    && s[i..i + |VersionName|] == VersionName
    && (forall k :: i + |VersionName| <= k < eq ==> IsSpace(s[k]))
    && s[eq] == '='
    && (forall k :: eq + 1 <= k < open ==> IsSpace(s[k]))
    && IsQuote(s[open])
    && s[open + 1..open + 1 + |v|] == v
    && (forall k :: 0 <= k < |v| ==> !IsQuote(v[k]))
    && IsQuote(s[open + 1 + |v|])
  }

  /** What `MatchAt` captures is a match of the pattern. */
  lemma MatchAtSound(s: string, i: nat)
    requires i <= |s| && MatchAt(s, i).Some?
    ensures exists a: nat, b: nat :: PatternAt(s, i, a, b, MatchAt(s, i).value)
  {
    var j := SkipSpaces(s, i + |VersionName|);
    var k := SkipSpaces(s, j + 1);
    var e := QuoteEnd(s, k + 1);
    var v := s[k + 1..e];
    assert MatchAt(s, i) == Some(v);
    assert s[k + 1..k + 1 + |v|] == v;
    assert forall m :: 0 <= m < |v| ==> v[m] == s[k + 1 + m];
    assert PatternAt(s, i, j - i - |VersionName|, k - j - 1, v);
  }

  /** Every match of the pattern at `i` is the one `MatchAt` finds. */
  lemma MatchAtComplete(s: string, i: nat, a: nat, b: nat, v: string)
    requires PatternAt(s, i, a, b, v)
    ensures MatchAt(s, i) == Some(v)
  {
    var eq := i + |VersionName| + a;
    var open := eq + 1 + b;
    var close := open + 1 + |v|;
    assert s[eq] == '=' && !IsSpace(s[eq]);
    assert IsQuote(s[open]) && !IsSpace(s[open]);
    assert IsQuote(s[close]);
    SkipSpacesStops(s, i + |VersionName|, eq);
    SkipSpacesStops(s, eq + 1, open);
    assert s[open + 1..close] == v;
    forall k | open + 1 <= k < close ensures !IsQuote(s[k]) {
      assert s[k] == v[k - open - 1];
    }
    QuoteEndStops(s, open + 1, close);
    MatchAtSteps(s, i, eq, open, close);
  }

  /** `MatchAt` in terms of where its scans stop. */
  lemma MatchAtSteps(s: string, i: nat, eq: nat, open: nat, close: nat)
    requires i + |VersionName| <= eq < open < close < |s|
    requires s[i..i + |VersionName|] == VersionName
    requires SkipSpaces(s, i + |VersionName|) == eq && s[eq] == '='
    requires SkipSpaces(s, eq + 1) == open && IsQuote(s[open])
    requires QuoteEnd(s, open + 1) == close
    ensures MatchAt(s, i) == Some(s[open + 1..close])
  {
  }

  lemma {:induction false} SkipSpacesStops(s: string, i: nat, j: nat)
    requires i <= j < |s| && !IsSpace(s[j]) && forall k :: i <= k < j ==> IsSpace(s[k])
    ensures SkipSpaces(s, i) == j
    decreases j - i
  {
    if i < j {
      SkipSpacesStops(s, i + 1, j);
    }
  }

  lemma {:induction false} QuoteEndStops(s: string, i: nat, j: nat)
    requires i <= j < |s| && IsQuote(s[j]) && forall k :: i <= k < j ==> !IsQuote(s[k])
    ensures QuoteEnd(s, i) == j
    decreases j - i
  {
    if i < j {
      QuoteEndStops(s, i + 1, j);
    }
  }

  /** `MatchAt(s, i)` holds and no position from `from` up to `i` matches. */
  predicate FirstMatch(s: string, from: nat, i: nat)
    requires from <= i <= |s|
  {
    MatchAt(s, i).Some? && forall j :: from <= j < i ==> MatchAt(s, j).None?
  }

  /** `re.search` from position `from`: the capture of the leftmost match. */
  function Search(s: string, from: nat): Option<string>
    requires from <= |s|
    decreases |s| - from
  {
    if MatchAt(s, from).Some? then MatchAt(s, from)
    else if from == |s| then None
    else Search(s, from + 1)
  }

  /** `Search` finds the capture of the leftmost position that matches, and finds
      nothing only when no position from `from` on matches. */
  lemma SearchMeaning(s: string, from: nat)
    requires from <= |s|
    ensures Search(s, from).Some? ==>
      exists i :: from <= i <= |s| && FirstMatch(s, from, i) && MatchAt(s, i) == Search(s, from)
    ensures Search(s, from).None? ==> forall i :: from <= i <= |s| ==> MatchAt(s, i).None?
  {
    if Search(s, from).Some? {
      var i := SearchFinds(s, from);
    } else {
      SearchMisses(s, from);
    }
  }

  /** Where a successful `Search` matched. */
  lemma {:induction false} SearchFinds(s: string, from: nat) returns (i: nat)
    requires from <= |s| && Search(s, from).Some?
    ensures from <= i <= |s| && FirstMatch(s, from, i) && MatchAt(s, i) == Search(s, from)
    decreases |s| - from
  {
    if MatchAt(s, from).Some? {
      i := from;
    } else {
      i := SearchFinds(s, from + 1);
      assert forall j :: from + 1 <= j < i ==> MatchAt(s, j).None?;
    }
  }

  lemma {:induction false} SearchMisses(s: string, from: nat)
    requires from <= |s| && Search(s, from).None?
    ensures forall i :: from <= i <= |s| ==> MatchAt(s, i).None?
    decreases |s| - from
  {
    if from < |s| {
      SearchMisses(s, from + 1);
    }
  }

  /** Step 3: the first `__version__ = '...'` capture of the bridge's source. */
  function FromSource(content: Option<string>): Option<PyValue> {
    if content.None? then None
    else
      var m := Search(content.value, 0);
      if m.None? then None else Some(Str(m.value))
  }

  /** `get_version()`: the first step that yields a value, else "1.0.0". It never raises. */
  function GetVersion(src: Sources): PyValue {
    var git := FromGit(src.git);
    if git.Some? then git.value
    else
      var py := FromPyproject(src.pyproject);
      if py.Some? then py.value
      else
        var source := FromSource(src.bridgeSource);
        if source.Some? then source.value
        else Str(DefaultVersion)
  }

  // ---------------------------------------------------------------------------
  // Facts about the cascade

  /** A tag from a successful `git describe` wins over every other source; it is the
      stripped output with at most one leading `v` removed. */
  lemma GitTagWins(src: Sources, out: string)
    requires src.git == Some(GitRun(0, out))
    ensures GetVersion(src).Str?
    ensures var tag := Strip(out); var v := GetVersion(src).s;
      && (if StartsWith(tag, "v") then "v" + v == tag else v == tag)
  {
    var tag := Strip(out);
    if StartsWith(tag, "v") {
      assert tag == "v" + tag[1..];
    }
  }

  /** Only a zero exit status makes the git step count. */
  lemma GitFailureFallsThrough(src: Sources)
    requires src.git.None? || src.git.value.returncode != 0
    ensures GetVersion(src) == GetVersion(src.(git := None))
  {
  }

  /** Once pyproject.toml loads with a table (or no) `project` entry, its version (or
      "1.0.0") is the result and the bridge's source is never looked at. */
  lemma PyprojectShadowsSource(src: Sources, other: Option<string>)
    requires FromGit(src.git).None? && src.pyproject.Some?
    requires "project" in src.pyproject.value ==> src.pyproject.value["project"].Table?
    ensures GetVersion(src) == GetVersion(src.(bridgeSource := other))
    ensures var data := src.pyproject.value;
      var project := if "project" in data then data["project"].entries else map[];
      GetVersion(src) == if "version" in project then project["version"] else Str(DefaultVersion)
  {
  }

  /** A `project` entry that is not a table makes the pyproject step fall through. */
  lemma PyprojectNonTableFallsThrough(src: Sources)
    requires FromGit(src.git).None? && src.pyproject.Some?
    requires "project" in src.pyproject.value && !src.pyproject.value["project"].Table?
    ensures GetVersion(src) == GetVersion(src.(pyproject := None))
  {
  }

  /** Without git and pyproject, the result is the first capture in the bridge's source,
      or the default. */
  lemma SourceStep(src: Sources)
    requires FromGit(src.git).None? && FromPyproject(src.pyproject).None?
    requires src.bridgeSource.Some?
    ensures var m := Search(src.bridgeSource.value, 0);
      GetVersion(src) == if m.Some? then Str(m.value) else Str(DefaultVersion)
  {
  }

  /** The only way to obtain something other than a string is a non-string `version`
      value in pyproject.toml. */
  lemma NonTextOnlyFromPyproject(src: Sources)
    requires !GetVersion(src).Str?
    ensures FromGit(src.git).None? && FromPyproject(src.pyproject) == Some(GetVersion(src))
  {
  }

  /** With no source at all the version is "1.0.0". */
  lemma NoSources()
    ensures GetVersion(Sources(None, None, None)) == Str("1.0.0")
  {
  }

  // ---------------------------------------------------------------------------
  // Normalisation: split on '.', pad with "0" to four parts, keep four, int() each

  /** The parts padded with "0" up to four. */
  function Padded(parts: seq<string>): (r: seq<string>)
    ensures |r| >= 4
  {
    if |parts| < 4 then parts + seq(4 - |parts|, _ => "0") else parts
  }

  /** `int(part)` for every part; `None` when one of them raises `ValueError`. */
  function ParseAll(parts: seq<string>): (r: Option<seq<int>>)
    ensures r.Some? ==> |r.value| == |parts|
  {
    if parts == [] then Some([])
    else
      var head := ParseInt(parts[0]);
      var tail := ParseAll(parts[1..]);
      if head.None? || tail.None? then None
      else Some([head.value] + tail.value)
  }

  /** `ParseAll` succeeds exactly when every part is an integer, and then yields their
      values in order. */
  lemma {:induction false} ParseAllMeaning(parts: seq<string>)
    ensures ParseAll(parts).Some? ==>
              forall k :: 0 <= k < |parts| ==> ParseInt(parts[k]) == Some(ParseAll(parts).value[k])
    ensures ParseAll(parts).None? <==> exists k :: 0 <= k < |parts| && ParseInt(parts[k]).None?
  {
    if parts != [] {
      ParseAllMeaning(parts[1..]);
      assert forall k :: 1 <= k < |parts| ==> parts[k] == parts[1..][k - 1];
    }
  }

  /** Parts that are the printed forms of `values` parse to `values`. */
  lemma ParseAllOf(parts: seq<string>, values: seq<int>)
    requires |parts| == |values|
    requires forall k :: 0 <= k < |parts| ==> ParseInt(parts[k]) == Some(values[k])
    ensures ParseAll(parts) == Some(values)
  {
    ParseAllMeaning(parts);
    var r := ParseAll(parts);
    assert r.Some?;
    assert r.value == values;
  }

  /** The version tuple `create_version_info` builds from a version string. */
  function VersionTuple(version: string): Option<seq<int>> {
    ParseAll(Padded(Split(version, '.'))[..4])
  }

  /** The normalisation as the script runs it: a loop appending "0" to the list of parts
      while it has fewer than four, then `int()` of each of the first four. */
  method NormaliseVersion(version: string) returns (r: Option<seq<int>>)
    ensures r == VersionTuple(version)
  {
    var parts := Split(version, '.');
    ghost var original := parts;
    while |parts| < 4
      invariant |original| <= |parts| && (|original| < 4 ==> |parts| <= 4)
      invariant parts == original + seq(|parts| - |original|, _ => "0")
      invariant |original| >= 4 ==> parts == original
      decreases 4 - |parts|
    {
      parts := parts + ["0"];
    }
    assert parts == Padded(original);
    r := ParseAll(parts[..4]);
  }

  lemma ParseZero()
    ensures ParseInt("0") == Some(0)
  {
    IntReprRoundTrip(0);
  }

  /** The tuple has exactly four components: the first `min(n, 4)` are the parsed parts in
      order, the rest are 0; it is absent exactly when one of those parts is not an integer. */
  lemma VersionTupleShape(version: string)
    ensures var parts := Split(version, '.');
      var n := if |parts| < 4 then |parts| else 4;
      && (VersionTuple(version).Some? ==>
            var t := VersionTuple(version).value;
            && |t| == 4
            && (forall k :: 0 <= k < n ==> ParseInt(parts[k]) == Some(t[k]))
            && (forall k :: n <= k < 4 ==> t[k] == 0))
      && (VersionTuple(version).None? <==> exists k :: 0 <= k < n && ParseInt(parts[k]).None?)
  {
    var parts := Split(version, '.');
    var n := if |parts| < 4 then |parts| else 4;
    var four := Padded(parts)[..4];
    PaddedPrefix(parts);
    ParseZero();
    ParseAllMeaning(four);
    var r := ParseAll(four);
    if r.Some? {
      forall k | n <= k < 4 ensures r.value[k] == 0 {
        assert ParseInt(four[k]) == Some(r.value[k]);
      }
    }
    if r.None? {
      var k :| 0 <= k < 4 && ParseInt(four[k]).None?;
      assert k < n;
    }
  }

  lemma PaddedPrefix(parts: seq<string>)
    ensures var n := if |parts| < 4 then |parts| else 4;
      var four := Padded(parts)[..4];
      && (forall k :: 0 <= k < n ==> four[k] == parts[k])
      && (forall k :: n <= k < 4 ==> four[k] == "0")
  {
  }

  /** The default version normalises to (1, 0, 0, 0). */
  lemma DefaultVersionTuple()
    ensures VersionTuple(DefaultVersion) == Some([1, 0, 0, 0])
  {
    DefaultIsDotted();
    ThreePartVersion(DefaultVersion, [1, 0, 0]);
    assert [1, 0, 0] + [0] == [1, 0, 0, 0];
  }

  /** A version of three printed components is padded with one zero. */
  lemma ThreePartVersion(v: string, t: seq<int>)
    requires |t| == 3 && v == Join(DottedRepr(t), '.')
    ensures VersionTuple(v) == Some(t + [0])
  {
    DottedVersionRoundTrip(t);
    assert seq(1, _ => 0) == [0];
  }

  lemma DefaultIsDotted()
    ensures DefaultVersion == Join(DottedRepr([1, 0, 0]), '.')
  {
    assert IntRepr(1) == "1";
    assert DottedRepr([1, 0, 0]) == ["1", "0", "0"];
  }

  /** `str(c)` of each component. */
  function DottedRepr(t: seq<int>): (parts: seq<string>)
    ensures |parts| == |t|
  {
    seq(|t|, k requires 0 <= k < |t| => IntRepr(t[k]))
  }

  /** Up to four integers joined with '.' normalise back to themselves followed by zeros. */
  lemma DottedVersionRoundTrip(t: seq<int>)
    requires 1 <= |t| <= 4
    ensures VersionTuple(Join(DottedRepr(t), '.')) == Some(t + seq(4 - |t|, _ => 0))
  {
    var parts := DottedRepr(t);
    forall i | 0 <= i < |parts| ensures '.' !in parts[i] && ParseInt(parts[i]) == Some(t[i]) {
      IntReprChars(t[i]);
      IntReprRoundTrip(t[i]);
    }
    SplitJoin(parts, '.');
    var four := Padded(parts)[..4];
    PaddedPrefix(parts);
    ParseZero();
    var want := t + seq(4 - |t|, _ => 0);
    forall k | 0 <= k < 4 ensures ParseInt(four[k]) == Some(want[k]) {
      if k < |t| {
        assert four[k] == parts[k];
      } else {
        assert four[k] == "0";
      }
    }
    ParseAllOf(four, want);
  }

  // ---------------------------------------------------------------------------
  // The descriptor

  /** The pieces of Python's `repr` of a tuple between its commas: "1", " 0", " 0", " 0". */
  function ReprParts(t: seq<int>): (parts: seq<string>)
    ensures |parts| == |t|
  {
    seq(|t|, k requires 0 <= k < |t| => if k == 0 then IntRepr(t[0]) else " " + IntRepr(t[k]))
  }

  /** `str(t)` for a tuple of two or more integers, e.g. "(1, 0, 0, 0)". */
  function TupleRepr(t: seq<int>): string
    requires |t| >= 2
  {
    "(" + Join(ReprParts(t), ',') + ")"
  }

  /** Reads a tuple of integers back from its printed form. */
  function ParseTuple(s: string): Option<seq<int>> {
    if |s| >= 2 && s[0] == '(' && s[|s| - 1] == ')' then ParseAll(Split(s[1..|s| - 1], ','))
    else None
  }

  lemma IntReprChars(n: int)
    ensures forall i :: 0 <= i < |IntRepr(n)| ==> IsDigit(IntRepr(n)[i]) || IntRepr(n)[i] == '-'
  {
  }

  /** The printed tuple reads back as the tuple. */
  lemma TupleReprRoundTrip(t: seq<int>)
    requires |t| >= 2
    ensures ParseTuple(TupleRepr(t)) == Some(t)
  {
    var parts := ReprParts(t);
    forall i | 0 <= i < |parts| ensures ',' !in parts[i] && ParseInt(parts[i]) == Some(t[i]) {
      ReprPartParses(t, i);
    }
    TupleOfParts(parts, t);
  }

  /** Parts without commas that each parse as the matching value, joined by commas and
      put in parentheses, read back as the values. */
  lemma TupleOfParts(parts: seq<string>, values: seq<int>)
    requires |parts| == |values| && |parts| > 0
    requires forall i :: 0 <= i < |parts| ==> ',' !in parts[i] && ParseInt(parts[i]) == Some(values[i])
    ensures ParseTuple("(" + Join(parts, ',') + ")") == Some(values)
  {
    SplitJoin(parts, ',');
    var s := "(" + Join(parts, ',') + ")";
    assert s[1..|s| - 1] == Join(parts, ',');
    ParseAllOf(parts, values);
  }

  lemma ReprPartParses(t: seq<int>, i: nat)
    requires i < |t|
    ensures ',' !in ReprParts(t)[i] && ParseInt(ReprParts(t)[i]) == Some(t[i])
  {
    var r := IntRepr(t[i]);
    assert ReprParts(t)[i] == if i == 0 then r else " " + r;
    IntReprChars(t[i]);
    IntReprRoundTrip(t[i]);
    assert ',' !in r;
    if i > 0 {
      ParseIntIgnoresLeadingSpace(" ", r);
    }
  }

  const FileVersKey: string := "    filevers="
  const ProdVersKey: string := "    prodvers="
  const FileVersionKey: string := "            StringStruct(u'FileVersion', u'"
  const ProductVersionKey: string := "            StringStruct(u'ProductVersion', u'"

  const DescriptorHead: seq<string> := [
      "# UTF-8",
      "#",
      "# For more details about fixed file info 'ffi' see:",
      "# http://msdn.microsoft.com/en-us/library/ms646997.aspx",
      "VSVersionInfo(",
      "  ffi=FixedFileInfo(",
      "    # filevers and prodvers should be always a tuple with four items: (1, 2, 3, 4)",
      "    # Set not needed items to zero 0."
    ]

  const DescriptorFixedInfo: seq<string> := [
      "    # Contains a bitmask that specifies the valid bits 'flags'r",
      "    mask=0x3f,",
      "    # Contains a bitmask that specifies the Boolean attributes of the file.",
      "    flags=0x0,",
      "    # The operating system for which this file was designed.",
      "    # 0x4 - NT and there is no need to change it.",
      "    OS=0x4,",
      "    # The general type of file.",
      "    # 0x1 - the file is an application.",
      "    fileType=0x1,",
      "    # The function of the file.",
      "    # 0x0 - the function is not defined for this fileType",
      "    subtype=0x0,",
      "    # Creation date and time stamp.",
      "    date=(0, 0)",
      "  ),",
      "  kids=[",
      "    StringFileInfo(",
      "      [",
      "        StringTable(",
      "          u'040904B0',",
      "          [",
      "            StringStruct(u'CompanyName', u'Jumperless Project'),",
      "            StringStruct(u'FileDescription', u'Jumperless Wokwi Bridge'),"
    ]

  const DescriptorNames: seq<string> := [
      "            StringStruct(u'InternalName', u'JumperlessWokwiBridge'),",
      "            StringStruct(u'LegalCopyright', u'\U{A9} 2025 Jumperless Project'),",
      "            StringStruct(u'OriginalFilename', u'JumperlessWokwiBridge.exe'),",
      "            StringStruct(u'ProductName', u'Jumperless Wokwi Bridge'),"
    ]

  const DescriptorTail: seq<string> := [
      "          ]",
      "        )",
      "      ]",
      "    ),",
      "    VarFileInfo([VarStruct(u'Translation', [1033, 1200])])",
      "  ]",
      ")",
      ""
    ]

  /** The lines of `version_info.txt`. */
  function DescriptorLines(version: string, t: seq<int>): seq<string>
    requires |t| >= 2
  {
    DescriptorHead
    + [FileVersKey + TupleRepr(t) + ",", ProdVersKey + TupleRepr(t) + ","]
    + DescriptorFixedInfo
    + [FileVersionKey + version + "'),"]
    + DescriptorNames
    + [ProductVersionKey + version + "'),"]
    + DescriptorTail
  }

  /** The text of `version_info.txt` for a version string and its tuple. */
  function Descriptor(version: string, t: seq<int>): string
    requires |t| >= 2
  {
    Join(DescriptorLines(version, t), '\n')
  }

  /** The descriptor has 48 lines; lines 9 and 10 (`filevers=`, `prodvers=`) both carry
      the printed tuple, lines 35 and 40 (`FileVersion`, `ProductVersion`) both carry the
      version string, and the printed tuple reads back as the tuple. */
  lemma DescriptorFields(version: string, t: seq<int>)
    requires |t| == 4
    ensures var lines := DescriptorLines(version, t);
      && |lines| == 48
      && lines[8] == FileVersKey + TupleRepr(t) + ","
      && lines[9] == ProdVersKey + TupleRepr(t) + ","
      && lines[34] == FileVersionKey + version + "'),"
      && lines[39] == ProductVersionKey + version + "'),"
      && ParseTuple(TupleRepr(t)) == Some(t)
  {
    DescriptorLength(version, t);
    TupleLines(version, t);
    VersionLines(version, t);
    TupleReprRoundTrip(t);
  }

  lemma DescriptorLength(version: string, t: seq<int>)
    requires |t| == 4
    ensures |DescriptorLines(version, t)| == 48
  {
  }

  lemma TupleLines(version: string, t: seq<int>)
    requires |t| == 4
    ensures DescriptorLines(version, t)[8] == FileVersKey + TupleRepr(t) + ","
    ensures DescriptorLines(version, t)[9] == ProdVersKey + TupleRepr(t) + ","
  {
  }

  lemma VersionLines(version: string, t: seq<int>)
    requires |t| == 4
    ensures DescriptorLines(version, t)[34] == FileVersionKey + version + "'),"
    ensures DescriptorLines(version, t)[39] == ProductVersionKey + version + "'),"
  {
  }

  /** Only lines 9, 10, 35 and 40 depend on the version. */
  lemma DescriptorFixedLines(v1: string, t1: seq<int>, v2: string, t2: seq<int>)
    requires |t1| == 4 && |t2| == 4
    ensures var a := DescriptorLines(v1, t1); var b := DescriptorLines(v2, t2);
      && |a| == |b|
      && forall i :: 0 <= i < |a| && i != 8 && i != 9 && i != 34 && i != 39 ==> a[i] == b[i]
  {
    assert |DescriptorHead| == 8 && |DescriptorFixedInfo| == 24 && |DescriptorNames| == 4;
    SplicesAgree(DescriptorHead, DescriptorFixedInfo, DescriptorNames, DescriptorTail,
                 [FileVersKey + TupleRepr(t1) + ",", ProdVersKey + TupleRepr(t1) + ","],
                 [FileVersionKey + v1 + "'),"], [ProductVersionKey + v1 + "'),"],
                 [FileVersKey + TupleRepr(t2) + ",", ProdVersKey + TupleRepr(t2) + ","],
                 [FileVersionKey + v2 + "'),"], [ProductVersionKey + v2 + "'),"]);
  }

  /** Two sequences of lines built from the same fixed blocks around different lines at
      the same places agree outside those places. */
  lemma SplicesAgree(head: seq<string>, fixed: seq<string>, names: seq<string>, tail: seq<string>,
                     x: seq<string>, y: seq<string>, z: seq<string>,
                     x2: seq<string>, y2: seq<string>, z2: seq<string>)
    requires |head| == 8 && |fixed| == 24 && |names| == 4
    requires |x| == 2 && |x2| == 2 && |y| == 1 && |y2| == 1 && |z| == 1 && |z2| == 1
    ensures var a := head + x + fixed + y + names + z + tail;
      var b := head + x2 + fixed + y2 + names + z2 + tail;
      && |a| == |b|
      && forall i :: 0 <= i < |a| && i != 8 && i != 9 && i != 34 && i != 39 ==> a[i] == b[i]
  {
    var a := head + x + fixed + y + names + z + tail;
    var b := head + x2 + fixed + y2 + names + z2 + tail;
    forall i | 0 <= i < |a| && i != 8 && i != 9 && i != 34 && i != 39 ensures a[i] == b[i] {
      if i < 8 {
        assert a[i] == head[i] == b[i];
      } else if i < 34 {
        assert a[i] == fixed[i - 10] == b[i];
      } else if i < 39 {
        assert a[i] == names[i - 35] == b[i];
      } else {
        assert a[i] == tail[i - 40] == b[i];
      }
    }
  }

  // ---------------------------------------------------------------------------
  // create_version_info()

  /** Why `create_version_info` stops: `.split` on a non-string, `int()` on a part that
      is not an integer, or the write of `version_info.txt`. */
  datatype VersionFailure = VersionNotText | ComponentNotInteger | WriteFailed(error: OsError)

  const VersionInfoPath: Path := ["version_info.txt"]

  /** The text `create_version_info` writes, or why it stops before writing. */
  function VersionInfoText(src: Sources): Result<string, VersionFailure> {
    var v := GetVersion(src);
    if !v.Str? then Failure(VersionNotText)
    else
      var t := VersionTuple(v.s);
      if t.None? then Failure(ComponentNotInteger)
      else
        VersionTupleShape(v.s);
        Success(Descriptor(v.s, t.value))
  }

  /** `create_version_info()`: resolves and normalises the version and writes the
      descriptor to `version_info.txt`. The function returns `None`; the `Success` value
      stands for the version its closing message prints. */
  method CreateVersionInfo(ws: Workspace, src: Sources) returns (r: Result<string, VersionFailure>)
    modifies ws
    ensures ws.warnings == old(ws.warnings)
    ensures VersionInfoText(src).Failure? ==> r == Failure(VersionInfoText(src).error) && ws.tree == old(ws.tree)
    ensures VersionInfoText(src).Success? ==>
              var w := WriteText(old(ws.tree), VersionInfoPath, VersionInfoText(src).value);
              && (w.Failure? ==> r == Failure(WriteFailed(w.error)))
              && (w.Success? ==> r == Success(GetVersion(src).s) && ws.tree == w.value)
  {
    var version := GetVersion(src);
    if !version.Str? {
      return Failure(VersionNotText);
    }
    var t := NormaliseVersion(version.s);
    if t.None? {
      return Failure(ComponentNotInteger);
    }
    VersionTupleShape(version.s);
    var st := ws.WriteFile(VersionInfoPath, Text(Descriptor(version.s, t.value)));
    if st.Crashed? {
      return Failure(WriteFailed(st.error));
    }
    return Success(version.s);
  }
}
