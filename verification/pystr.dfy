/**
 * The few Python `str` and `int` built-ins the packaging scripts rely on,
 * written out with Python's semantics: `isspace`, `strip`, `startswith`,
 * `split` on a one-character separator (and its inverse `join`), `title`,
 * `int(s)` for base-10 text and `str(n)` for integers.
 */
module PyStr {
  import opened Wrappers

  /** `c.isspace()`: the characters Python's `str.isspace` (and the `\s` class of
      a `str` regular expression) treat as whitespace. */
  predicate IsSpace(c: char) {
    c == ' ' || c == '\t' || c == '\n' || c == '\r' || c == '\U{0B}' || c == '\U{0C}'
    || ('\U{1C}' <= c <= '\U{1F}') || c == '\U{85}' || c == '\U{A0}' || c == '\U{1680}'
    || ('\U{2000}' <= c <= '\U{200A}') || c == '\U{2028}' || c == '\U{2029}'
    || c == '\U{202F}' || c == '\U{205F}' || c == '\U{3000}'
  }

  predicate IsDigit(c: char) { '0' <= c <= '9' }

  predicate IsUpper(c: char) { 'A' <= c <= 'Z' }

  predicate IsLower(c: char) { 'a' <= c <= 'z' }

  /** A cased character in the sense of `str.title` (ASCII letters only). */
  predicate IsCased(c: char) { IsUpper(c) || IsLower(c) }

  function ToUpper(c: char): (u: char)
    ensures IsCased(u) <==> IsCased(c)
    ensures !IsCased(c) ==> u == c
    ensures IsCased(c) ==> IsUpper(u)
  {
    if IsLower(c) then (c as int - 32) as char else c
  }

  function ToLower(c: char): (l: char)
    ensures IsCased(l) <==> IsCased(c)
    ensures !IsCased(c) ==> l == c
    ensures IsCased(c) ==> IsLower(l)
  {
    if IsUpper(c) then (c as int + 32) as char else c
  }

  predicate StartsWith(s: string, prefix: string) {
    |prefix| <= |s| && s[..|prefix|] == prefix
  }

  /** `s` occurs in `text` at position `i`. */
  predicate OccursAt(text: string, s: string, i: nat) {
    i + |s| <= |text| && text[i..i + |s|] == s
  }

  /** `s` occurs somewhere inside `text` (Python's `s in text`). */
  predicate Contains(text: string, s: string) {
    exists i: nat :: i <= |text| && OccursAt(text, s, i)
  }

  lemma ContainsPart(a: string, b: string, c: string)
    ensures Contains(a + b + c, b)
  {
    var t := a + b + c;
    assert t[|a|..|a| + |b|] == b;
    assert OccursAt(t, b, |a|);
  }

  /** What occurs in the middle part occurs in the whole. */
  lemma ContainsWithin(a: string, b: string, c: string, x: string)
    requires Contains(b, x)
    ensures Contains(a + b + c, x)
  {
    var i: nat :| i <= |b| && OccursAt(b, x, i);
    var t := a + b + c;
    assert t[|a| + i..|a| + i + |x|] == b[i..i + |x|];
    assert OccursAt(t, x, |a| + i);
  }

  /** What occurs in a prefix occurs in the whole. */
  lemma ContainsPrefix(a: string, b: string, x: string)
    requires Contains(a, x)
    ensures Contains(a + b, x)
  {
    var i: nat :| i <= |a| && OccursAt(a, x, i);
    assert (a + b)[i..i + |x|] == a[i..i + |x|];
    assert OccursAt(a + b, x, i);
  }

  /** What occurs in a suffix occurs in the whole. */
  lemma ContainsSuffix(a: string, b: string, x: string)
    requires Contains(b, x)
    ensures Contains(a + b, x)
  {
    var i: nat :| i <= |b| && OccursAt(b, x, i);
    assert (a + b)[|a| + i..|a| + i + |x|] == b[i..i + |x|];
    assert OccursAt(a + b, x, |a| + i);
  }

  /** `x in mid` and `mid in text` give `x in text`. */
  lemma ContainsIn(text: string, mid: string, x: string)
    requires Contains(text, mid) && Contains(mid, x)
    ensures Contains(text, x)
  {
    var i: nat :| i <= |text| && OccursAt(text, mid, i);
    var j: nat :| j <= |mid| && OccursAt(mid, x, j);
    forall k | 0 <= k < |x| ensures text[i + j + k] == x[k] {
      assert text[i..i + |mid|][j + k] == mid[j + k];
      assert mid[j..j + |x|][k] == x[k];
    }
    assert text[i + j..i + j + |x|] == x;
    assert OccursAt(text, x, i + j);
  }

  lemma StartsWithAppend(a: string, b: string)
    ensures StartsWith(a + b, a)
  {
    assert (a + b)[..|a|] == a;
  }

  /** `s.replace(from, to)` for single characters. */
  function ReplaceChar(s: string, from: char, to: char): (r: string)
    ensures |r| == |s|
  {
    if s == [] then [] else [if s[0] == from then to else s[0]] + ReplaceChar(s[1..], from, to)
  }

  /** Every occurrence of `from`, and nothing else, is replaced. */
  lemma {:induction false} ReplaceCharMeaning(s: string, from: char, to: char)
    ensures forall i :: 0 <= i < |s| ==> ReplaceChar(s, from, to)[i] == if s[i] == from then to else s[i]
  {
    if s != [] {
      ReplaceCharMeaning(s[1..], from, to);
      var r := ReplaceChar(s, from, to);
      assert r[1..] == ReplaceChar(s[1..], from, to);
    }
  }

  /** After the replacement `from` no longer occurs, and a string without `from` is left as it is. */
  lemma ReplaceCharEffect(s: string, from: char, to: char)
    ensures from != to ==> from !in ReplaceChar(s, from, to)
    ensures from !in s ==> ReplaceChar(s, from, to) == s
  {
    ReplaceCharMeaning(s, from, to);
  }

  // ---------------------------------------------------------------------------
  // strip()

  /** `s.lstrip()` */
  function LStrip(s: string): string {
    if s != [] && IsSpace(s[0]) then LStrip(s[1..]) else s
  }

  /** `s.lstrip()` is a suffix of `s` that does not start with whitespace, and what it
      drops is whitespace. */
  lemma {:induction false} LStripMeaning(s: string)
    ensures var r := LStrip(s);
      && |r| <= |s| && r == s[|s| - |r|..]
      && (r == [] || !IsSpace(r[0]))
      && forall i :: 0 <= i < |s| - |r| ==> IsSpace(s[i])
  {
    if s != [] && IsSpace(s[0]) {
      LStripMeaning(s[1..]);
      var r := LStrip(s[1..]);
      assert LStrip(s) == r;
      assert s[1..][|s| - 1 - |r|..] == s[|s| - |r|..];
      forall i | 0 <= i < |s| - |r| ensures IsSpace(s[i]) {
        if i > 0 {
          assert s[i] == s[1..][i - 1];
        }
      }
    }
  }

  /** `s.rstrip()` */
  function RStrip(s: string): string {
    if s != [] && IsSpace(s[|s| - 1]) then RStrip(s[..|s| - 1]) else s
  }

  /** `s.rstrip()` is a prefix of `s` that does not end with whitespace, and what it
      drops is whitespace. */
  lemma {:induction false} RStripMeaning(s: string)
    ensures var r := RStrip(s);
      && |r| <= |s| && r == s[..|r|]
      && (r == [] || !IsSpace(r[|r| - 1]))
      && forall i :: |r| <= i < |s| ==> IsSpace(s[i])
  {
    if s != [] && IsSpace(s[|s| - 1]) {
      RStripMeaning(s[..|s| - 1]);
    }
  }

  /** `r` is `s[i..]` cut short, with nothing but whitespace around it in `s`. */
  predicate TrimmedSlice(s: string, r: string, i: nat) {
    && i + |r| <= |s| && r == s[i..i + |r|]
    && (forall k :: 0 <= k < i ==> IsSpace(s[k]))
    && (forall k :: i + |r| <= k < |s| ==> IsSpace(s[k]))
  }

  /** `s.strip()` */
  function Strip(s: string): string {
    RStrip(LStrip(s))
  }

  /** `s.strip()` is a slice of `s` that neither starts nor ends with whitespace and
      outside which there is only whitespace. */
  lemma StripMeaning(s: string)
    ensures var r := Strip(s);
      && (r == [] || (!IsSpace(r[0]) && !IsSpace(r[|r| - 1])))
      && exists i: nat :: TrimmedSlice(s, r, i)
  {
    var l := LStrip(s);
    var r := RStrip(l);
    LStripMeaning(s);
    RStripMeaning(l);
    assert TrimmedSlice(s, r, |s| - |l|);
  }

  /** Text that already has no whitespace at either end is left alone by `strip()`. */
  lemma StripTrimmed(s: string)
    requires s == [] || (!IsSpace(s[0]) && !IsSpace(s[|s| - 1]))
    ensures Strip(s) == s
  {
  }

  lemma {:induction false} LStripSpacesThen(w: string, s: string)
    requires forall k :: 0 <= k < |w| ==> IsSpace(w[k])
    ensures LStrip(w + s) == LStrip(s)
  {
    if w != [] {
      var t := w + s;
      assert t[0] == w[0] && IsSpace(t[0]);
      assert t[1..] == w[1..] + s;
      assert LStrip(t) == LStrip(t[1..]);
      LStripSpacesThen(w[1..], s);
    } else {
      assert w + s == s;
    }
  }

  // ---------------------------------------------------------------------------
  // split('.') and its inverse '.'.join(...)

  /** The position of the first `c` in `s`. */
  function IndexOf(s: string, c: char): (i: nat)
    requires c in s
    ensures i < |s| && s[i] == c && c !in s[..i]
  {
    if s[0] == c then 0 else 1 + IndexOf(s[1..], c)
  }

  /** `s.split(sep)` for a one-character separator: never empty, and no part holds `sep`. */
  function Split(s: string, sep: char): (parts: seq<string>)
    ensures |parts| >= 1
    ensures forall i :: 0 <= i < |parts| ==> sep !in parts[i]
    decreases |s|
  {
    if sep !in s then [s]
    else
      var i := IndexOf(s, sep);
      [s[..i]] + Split(s[i + 1..], sep)
  }

  /** `sep.join(parts)` */
  function Join(parts: seq<string>, sep: char): string
    requires |parts| >= 1
  {
    if |parts| == 1 then parts[0] else parts[0] + [sep] + Join(parts[1..], sep)
  }

  /** Joining the parts of a split gives back the text that was split. */
  lemma {:induction false} JoinSplit(s: string, sep: char)
    ensures Join(Split(s, sep), sep) == s
    decreases |s|
  {
    if sep in s {
      var i := IndexOf(s, sep);
      var rest := s[i + 1..];
      JoinSplit(rest, sep);
      assert Split(s, sep)[1..] == Split(rest, sep);
      assert s == s[..i] + [sep] + rest;
    }
  }

  /** Splitting a join of separator-free parts gives back those parts. */
  lemma {:induction false} SplitJoin(parts: seq<string>, sep: char)
    requires |parts| >= 1
    requires forall i :: 0 <= i < |parts| ==> sep !in parts[i]
    ensures Split(Join(parts, sep), sep) == parts
  {
    if |parts| > 1 {
      SplitJoin(parts[1..], sep);
      SplitCons(parts[0], sep, Join(parts[1..], sep));
      assert parts == [parts[0]] + parts[1..];
    }
  }

  /** Splitting a separator-free part, a separator and the rest. */
  lemma SplitCons(a: string, sep: char, tail: string)
    requires sep !in a
    ensures Split(a + [sep] + tail, sep) == [a] + Split(tail, sep)
  {
    var s := a + [sep] + tail;
    assert s[|a|] == sep;
    assert s[..|a|] == a;
    IndexOfFirst(s, sep, |a|);
    assert s[|a| + 1..] == tail;
  }

  lemma IndexOfFirst(s: string, c: char, i: nat)
    requires i < |s| && s[i] == c && c !in s[..i]
    ensures IndexOf(s, c) == i
  {
  }

  // ---------------------------------------------------------------------------
  // title()

  /** `s.title()` continued after a character that was (`afterCased`) or was not cased:
      a cased character is upper-cased after an uncased one and lower-cased after a cased one. */
  function TitleFrom(s: string, afterCased: bool): (r: string)
    ensures |r| == |s|
    ensures forall i :: 0 <= i < |s| ==> (IsCased(r[i]) <==> IsCased(s[i]))
    ensures forall i :: 0 <= i < |s| && !IsCased(s[i]) ==> r[i] == s[i]
  {
    if s == [] then []
    else
      var c := if afterCased then ToLower(s[0]) else ToUpper(s[0]);
      [c] + TitleFrom(s[1..], IsCased(s[0]))
  }

  /** `s.title()` */
  function Title(s: string): string {
    TitleFrom(s, false)
  }

  /** Title-casing is idempotent. */
  lemma {:induction false} TitleFromIdempotent(s: string, afterCased: bool)
    ensures TitleFrom(TitleFrom(s, afterCased), afterCased) == TitleFrom(s, afterCased)
  {
    if s != [] {
      var t := TitleFrom(s, afterCased);
      assert t[1..] == TitleFrom(s[1..], IsCased(s[0]));
      TitleFromIdempotent(s[1..], IsCased(s[0]));
    }
  }

  lemma TitleIdempotent(s: string)
    ensures Title(Title(s)) == Title(s)
  {
    TitleFromIdempotent(s, false);
  }

  /** The first character of a word is upper case, the following letters lower case. */
  lemma {:induction false} TitleWord(s: string)
    requires s != [] && forall i :: 0 <= i < |s| ==> IsCased(s[i])
    ensures IsUpper(Title(s)[0])
    ensures forall i :: 1 <= i < |s| ==> IsLower(Title(s)[i])
  {
    var r := Title(s);
    assert r[1..] == TitleFrom(s[1..], true);
    forall i | 1 <= i < |s| ensures IsLower(r[i]) {
      TitleFromCased(s[1..], i - 1);
    }
  }

  lemma {:induction false} TitleFromCased(s: string, k: nat)
    requires k < |s| && forall i :: 0 <= i < |s| ==> IsCased(s[i])
    ensures IsLower(TitleFrom(s, true)[k])
  {
    if k > 0 {
      assert TitleFrom(s, true)[1..] == TitleFrom(s[1..], true);
      TitleFromCased(s[1..], k - 1);
    }
  }

  // ---------------------------------------------------------------------------
  // int(s) and str(n)

  /** The characters Python accepts in a base-10 `int()` literal after the sign: digits,
      with single underscores allowed between two digits. */
  predicate DigitRun(s: string) {
    && s != []
    && IsDigit(s[0]) && IsDigit(s[|s| - 1])
    && (forall i :: 0 <= i < |s| ==> IsDigit(s[i]) || s[i] == '_')
    && (forall i, j :: 0 <= i < |s| && j == i + 1 && j < |s| ==> !(s[i] == '_' && s[j] == '_'))
  }

  /** The value of a run of digits and underscores, the underscores being ignored. */
  function DigitsValue(s: string): nat
    requires forall i :: 0 <= i < |s| ==> IsDigit(s[i]) || s[i] == '_'
  {
    if s == [] then 0
    else
      var last := s[|s| - 1];
      if last == '_' then DigitsValue(s[..|s| - 1])
      else
        assert IsDigit(last);
        DigitsValue(s[..|s| - 1]) * 10 + (last as int - '0' as int)
  }

  /** `int(s)`: `None` where Python raises `ValueError`. Surrounding whitespace and one
      sign are accepted, as Python does. */
  function ParseInt(s: string): Option<int> {
    ParseTrimmed(Strip(s))
  }

  /** `int()` on text already stripped of surrounding whitespace. */
  function ParseTrimmed(t: string): (r: Option<int>)
    ensures r.Some? ==> t != []
  {
    if t == [] then None
    else
      var negative := t[0] == '-';
      var body := if t[0] == '-' || t[0] == '+' then t[1..] else t;
      if !DigitRun(body) then None
      else
        var magnitude: int := DigitsValue(body);
        Some(if negative then -magnitude else magnitude)
  }

  function DigitChar(d: nat): (c: char)
    requires d < 10
    ensures IsDigit(c) && c as int - '0' as int == d
  {
    ('0' as int + d) as char
  }

  /** `str(n)` for a natural number: its decimal digits, with no leading zero. */
  function NatRepr(n: nat): (r: string)
    ensures r != [] && forall i :: 0 <= i < |r| ==> IsDigit(r[i])
    ensures |r| > 1 ==> r[0] != '0'
  {
    if n < 10 then [DigitChar(n)] else NatRepr(n / 10) + [DigitChar(n % 10)]
  }

  /** `str(n)` */
  function IntRepr(n: int): string {
    if n < 0 then "-" + NatRepr(-n) else NatRepr(n)
  }

  lemma {:induction false} NatReprValue(n: nat)
    ensures DigitsValue(NatRepr(n)) == n
  {
    if n >= 10 {
      var r := NatRepr(n);
      assert r[..|r| - 1] == NatRepr(n / 10);
      NatReprValue(n / 10);
    }
  }

  /** A run of digits and underscores with a sign or nothing in front reads as its value. */
  lemma ParseSignedRun(sign: string, body: string)
    requires sign == "" || sign == "-" || sign == "+"
    requires DigitRun(body)
    ensures ParseInt(sign + body) == Some(if sign == "-" then -(DigitsValue(body) as int) else DigitsValue(body))
  {
    var t := sign + body;
    assert t[|t| - 1] == body[|body| - 1];
    assert !IsSpace(t[|t| - 1]) && !IsSpace(t[0]);
    StripTrimmed(t);
    if sign == "" {
      assert t == body;
      ParseTrimmedUnsigned(body);
    } else {
      assert t[1..] == body;
      ParseTrimmedSigned(t);
    }
  }

  lemma ParseTrimmedUnsigned(body: string)
    requires DigitRun(body)
    ensures ParseTrimmed(body) == Some(DigitsValue(body))
  {
  }

  lemma ParseTrimmedSigned(t: string)
    requires |t| >= 1 && (t[0] == '-' || t[0] == '+') && DigitRun(t[1..])
    ensures ParseTrimmed(t) == Some(if t[0] == '-' then -(DigitsValue(t[1..]) as int) else DigitsValue(t[1..]))
  {
  }

  lemma NatReprDigitRun(n: nat)
    ensures DigitRun(NatRepr(n))
  {
  }

  /** `int(str(n)) == n`: the printed form of an integer reads back as that integer. */
  lemma IntReprRoundTrip(n: int)
    ensures ParseInt(IntRepr(n)) == Some(n)
  {
    var m: nat := if n < 0 then -n else n;
    NatReprValue(m);
    NatReprDigitRun(m);
    if n < 0 {
      ParseSignedRun("-", NatRepr(m));
    } else {
      ParseSignedRun("", NatRepr(m));
      assert "" + NatRepr(m) == NatRepr(m);
    }
  }

  /** Surrounding whitespace does not change what `int()` reads. */
  lemma ParseIntIgnoresLeadingSpace(w: string, s: string)
    requires forall k :: 0 <= k < |w| ==> IsSpace(w[k])
    ensures ParseInt(w + s) == ParseInt(s)
  {
    LStripSpacesThen(w, s);
    assert Strip(w + s) == Strip(s);
  }
}
