/**
 * String operations shared by the Java services and the Python pages:
 * ASCII case mapping, the whitespace classes of Java and Python, trimming,
 * joining and splitting, substring search and decimal rendering of integers.
 */
module Text {
  import opened Wrappers

  /** Java's string concatenation renders a null reference as "null". */
  function Show(s: Option<string>): string {
    match s
    case Some(v) => v
    case None => "null"
  }

  // ---------------------------------------------------------------------------
  // Characters

  predicate IsUpper(c: char) { 'A' <= c <= 'Z' }

  predicate IsLowerLetter(c: char) { 'a' <= c <= 'z' }

  predicate IsDigit(c: char) { '0' <= c <= '9' }

  /** Lower-casing of one character (ASCII letters only). */
  function LowerChar(c: char): char {
    if IsUpper(c) then (c as int + 32) as char else c
  }

  /** `toLowerCase()` / `str.lower()`, restricted to ASCII letters. */
  function Lower(s: string): (r: string)
    ensures |r| == |s|
    ensures forall i :: 0 <= i < |s| ==> r[i] == LowerChar(s[i])
  {
    seq(|s|, i requires 0 <= i < |s| => LowerChar(s[i]))
  }

  /** `String.equalsIgnoreCase` (ASCII letters only). */
  predicate EqualsIgnoreCase(a: string, b: string) {
    |a| == |b| && Lower(a) == Lower(b)
  }

  /** `Character.isWhitespace`, which `String.isBlank` uses. */
  predicate IsJavaWhitespace(c: char) {
    c == ' ' || ('\t' <= c <= '\r') || ('\U{1C}' <= c <= '\U{1F}')
    || c == '\U{1680}' || ('\U{2000}' <= c <= '\U{2006}') || ('\U{2008}' <= c <= '\U{200A}')
    || c == '\U{2028}' || c == '\U{2029}' || c == '\U{205F}' || c == '\U{3000}'
  }

  /** `String.isBlank`: empty or whitespace only. */
  predicate IsBlank(s: string) {
    forall i :: 0 <= i < |s| ==> IsJavaWhitespace(s[i])
  }

  /** The characters `String.trim` removes: every code point up to U+0020. */
  predicate IsJavaTrimmable(c: char) { c <= ' ' }

  /** The class `\s` of a Java regular expression: space, \t, \n, \x0B, \f, \r. */
  predicate IsRegexSpace(c: char) { c == ' ' || ('\t' <= c <= '\r') }

  /** The characters Python's `str.strip()` removes (`str.isspace`). */
  predicate IsPyWhitespace(c: char) {
    c == ' ' || ('\t' <= c <= '\r') || ('\U{1C}' <= c <= '\U{1F}') || c == '\U{85}' || c == '\U{A0}'
    || c == '\U{1680}' || ('\U{2000}' <= c <= '\U{200A}') || c == '\U{2028}' || c == '\U{2029}'
    || c == '\U{202F}' || c == '\U{205F}' || c == '\U{3000}'
  }

  // ---------------------------------------------------------------------------
  // Trimming

  /** Drops the leading characters that satisfy `strip`. */
  function TrimStart(s: string, strip: char -> bool): (r: string)
    ensures |r| <= |s| && r == s[|s| - |r|..]
    ensures r != [] ==> !strip(r[0])
    ensures forall i :: 0 <= i < |s| - |r| ==> strip(s[i])
  {
    if s != [] && strip(s[0]) then TrimStart(s[1..], strip) else s
  }

  /** Drops the trailing characters that satisfy `strip`. */
  function TrimEnd(s: string, strip: char -> bool): (r: string)
    ensures |r| <= |s| && r == s[..|r|]
    ensures r != [] ==> !strip(r[|r| - 1])
    ensures forall i :: |r| <= i < |s| ==> strip(s[i])
  {
    if s != [] && strip(s[|s| - 1]) then TrimEnd(s[..|s| - 1], strip) else s
  }

  /** Lower-casing commutes with taking a slice. */
  lemma LowerSlice(s: string, d: nat, n: nat)
    requires d + n <= |s|
    ensures Lower(s[d..d + n]) == Lower(s)[d..d + n]
  {
  }

  /** Drops the leading and trailing characters that satisfy `strip`. */
  function Trim(s: string, strip: char -> bool): string {
    TrimEnd(TrimStart(s, strip), strip)
  }

  /** A string that starts and ends with kept characters is its own trim. */
  lemma TrimKeeps(s: string, strip: char -> bool)
    requires s == [] || (!strip(s[0]) && !strip(s[|s| - 1]))
    ensures Trim(s, strip) == s
  {
  }

  /**
   * The trim of `s` is the slice of `s` that starts after the dropped
   * leading characters, and every character outside it satisfies `strip`.
   */
  lemma {:induction false} TrimSlice(s: string, strip: char -> bool)
    ensures var d := |s| - |TrimStart(s, strip)|; var n := |Trim(s, strip)|;
      d + n <= |s| && Trim(s, strip) == s[d..d + n]
      && (forall i :: 0 <= i < d ==> strip(s[i]))
      && (forall i :: d + n <= i < |s| ==> strip(s[i]))
  {
    var start := TrimStart(s, strip);
    var t := TrimEnd(start, strip);
    var d := |s| - |start|;
    SliceOfSuffixPrefix(s, d, start, t);
    forall i | d + |t| <= i < |s|
      ensures strip(s[i])
    {
      assert strip(start[i - d]);
    }
  }

  /** A prefix of a suffix is a slice, and the rest of the suffix is the rest of the string. */
  lemma SliceOfSuffixPrefix(s: string, d: nat, start: string, t: string)
    requires d <= |s| && start == s[d..] && |t| <= |start| && t == start[..|t|]
    ensures d + |t| <= |s| && t == s[d..d + |t|]
    ensures forall i :: d + |t| <= i < |s| ==> s[i] == start[i - d]
  {
  }

  /** A trimmed string starts and ends with kept characters. */
  lemma {:induction false} TrimEnds(s: string, strip: char -> bool)
    ensures var t := Trim(s, strip); t == [] || (!strip(t[0]) && !strip(t[|t| - 1]))
  {
    var start := TrimStart(s, strip);
    var t := Trim(s, strip);
    if t != [] {
      assert t == start[..|t|];
      assert t[0] == start[0];
    }
  }

  /** `String.trim()`. */
  function JavaTrim(s: string): string {
    Trim(s, IsJavaTrimmable)
  }

  /** Python's `str.strip()`. */
  function PyStrip(s: string): string {
    Trim(s, IsPyWhitespace)
  }

  // ---------------------------------------------------------------------------
  // Joining and splitting

  /** `String.join(sep, parts)` / `sep.join(parts)`. */
  function Join(parts: seq<string>, sep: string): string {
    if parts == [] then ""
    else if |parts| == 1 then parts[0]
    else parts[0] + sep + Join(parts[1..], sep)
  }

  /** A joined text begins with its first part. */
  lemma {:induction false} JoinStartsWithFirst(parts: seq<string>, sep: string)
    requires parts != []
    ensures |parts[0]| <= |Join(parts, sep)| && Join(parts, sep)[..|parts[0]|] == parts[0]
  {
    if |parts| > 1 {
      assert Join(parts, sep) == parts[0] + (sep + Join(parts[1..], sep));
    }
  }

  /** Joining one more part adds the separator and that part at the end. */
  lemma {:induction false} JoinAppend(parts: seq<string>, last: string, sep: string)
    requires parts != []
    ensures Join(parts + [last], sep) == Join(parts, sep) + sep + last
  {
    if |parts| == 1 {
      assert parts + [last] == [parts[0], last];
    } else {
      JoinAppend(parts[1..], last, sep);
      assert (parts + [last])[1..] == parts[1..] + [last];
    }
  }

  /** Python's `s.split(sep)` for a one-character separator: never empty, "" gives [""]. */
  function Split(s: string, sep: char): (r: seq<string>)
    ensures |r| >= 1
  {
    if s == [] then [""]
    else
      var rest := Split(s[1..], sep);
      if s[0] == sep then [""] + rest else [[s[0]] + rest[0]] + rest[1..]
  }

  lemma {:induction false} SplitWithoutSeparator(s: string, sep: char)
    requires sep !in s
    ensures Split(s, sep) == [s]
  {
    if s != [] {
      SplitWithoutSeparator(s[1..], sep);
      assert [s[0]] + s[1..] == s;
    }
  }

  lemma {:induction false} SplitAtSeparator(a: string, b: string, sep: char)
    requires sep !in a
    ensures Split(a + [sep] + b, sep) == [a] + Split(b, sep)
  {
    if a == [] {
      assert a + [sep] + b == [sep] + b;
      assert ([sep] + b)[1..] == b;
    } else {
      SplitAtSeparator(a[1..], b, sep);
      assert (a + [sep] + b)[1..] == a[1..] + [sep] + b;
      assert [a[0]] + a[1..] == a;
    }
  }

  /** No part of a split holds the separator. */
  lemma {:induction false} SplitPartsLackSeparator(s: string, sep: char)
    ensures forall i :: 0 <= i < |Split(s, sep)| ==> sep !in Split(s, sep)[i]
  {
    if s != [] {
      SplitPartsLackSeparator(s[1..], sep);
    }
  }

  /** Splitting a join recovers the parts when no part holds the separator. */
  lemma {:induction false} SplitJoin(parts: seq<string>, sep: char)
    requires parts != []
    requires forall i :: 0 <= i < |parts| ==> sep !in parts[i]
    ensures Split(Join(parts, [sep]), sep) == parts
  {
    if |parts| == 1 {
      SplitWithoutSeparator(parts[0], sep);
    } else {
      SplitJoin(parts[1..], sep);
      SplitAtSeparator(parts[0], Join(parts[1..], [sep]), sep);
      assert [parts[0]] + parts[1..] == parts;
    }
  }

  // ---------------------------------------------------------------------------
  // Substrings

  /** `s.contains(part)` / `part in s`. */
  predicate Contains(s: string, part: string) {
    exists i :: 0 <= i <= |s| - |part| && OccursAt(s, part, i)
  }

  predicate OccursAt(s: string, part: string, i: int) {
    0 <= i <= |s| - |part| && s[i..i + |part|] == part
  }

  /** Every character of a substring occurs in the string. */
  lemma ContainsChars(s: string, part: string, c: char)
    requires Contains(s, part) && c in part
    ensures c in s
  {
    var i :| 0 <= i <= |s| - |part| && OccursAt(s, part, i);
    var j :| 0 <= j < |part| && part[j] == c;
    assert s[i..i + |part|][j] == c;
  }

  // ---------------------------------------------------------------------------
  // Numbers

  function DigitChar(d: nat): (c: char)
    requires d < 10
    ensures IsDigit(c)
  {
    ('0' as int + d) as char
  }

  /** Decimal rendering of a natural number, most significant digit first. */
  function NatToString(n: nat): (r: string)
    ensures 1 <= |r| && (|r| == 1 <==> n < 10)
    ensures forall i :: 0 <= i < |r| ==> IsDigit(r[i])
  {
    if n < 10 then [DigitChar(n)] else NatToString(n / 10) + [DigitChar(n % 10)]
  }

  function Pow10(w: nat): nat {
    if w == 0 then 1 else 10 * Pow10(w - 1)
  }

  /** A number below 10^w has at most w digits. */
  lemma {:induction false} NatToStringWidth(n: nat, w: nat)
    requires 1 <= w && n < Pow10(w)
    ensures |NatToString(n)| <= w
  {
    if n >= 10 {
      assert n / 10 < Pow10(w - 1);
      NatToStringWidth(n / 10, w - 1);
    }
  }

  /** `Integer.toString` / `%d`. */
  function IntToString(i: int): (r: string)
    ensures 1 <= |r| && (r[0] == '-' <==> i < 0)
  {
    if i < 0 then "-" + NatToString(-i) else NatToString(i)
  }

  /** Different numbers have different decimal renderings. */
  lemma {:induction false} NatToStringInjective(m: nat, n: nat)
    requires NatToString(m) == NatToString(n)
    ensures m == n
  {
    if m >= 10 && n >= 10 {
      var sm, sn := NatToString(m), NatToString(n);
      assert sm[|sm| - 1] == DigitChar(m % 10) && sn[|sn| - 1] == DigitChar(n % 10);
      assert sm[..|sm| - 1] == NatToString(m / 10);
      assert sn[..|sn| - 1] == NatToString(n / 10);
      NatToStringInjective(m / 10, n / 10);
    }
  }

  lemma IntToStringInjective(m: int, n: int)
    requires IntToString(m) == IntToString(n)
    ensures m == n
  {
    if m < 0 {
      assert IntToString(m)[1..] == NatToString(-m) && IntToString(n)[1..] == NatToString(-n);
      NatToStringInjective(-m, -n);
    } else {
      NatToStringInjective(m, n);
    }
  }

  /** Left-pads `s` with `c` to `width` characters (`%0Nd`-style fields). */
  function PadLeft(s: string, width: nat, c: char): (r: string)
    ensures |r| == if |s| >= width then |s| else width
  {
    if |s| >= width then s else seq(width - |s|, _ => c) + s
  }
}
