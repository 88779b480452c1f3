/**
 * String helpers with Python's meaning: decimal numerals, prefix and suffix
 * tests, `split(sep)[0]`, `str.replace`, `os.path.splitext` and `str.join`.
 * Characters are compared as code points. Lower-casing folds ASCII letters
 * only; whitespace and line breaks follow Python's `str.isspace` and
 * `str.splitlines` over code points.
 */
module Text {

  predicate IsDigit(c: char) { '0' <= c <= '9' }

  predicate AllDigits(s: string) { forall i :: 0 <= i < |s| ==> IsDigit(s[i]) }

  function DigitChar(d: nat): char
    requires d < 10
  {
    ['0', '1', '2', '3', '4', '5', '6', '7', '8', '9'][d]
  }

  function DigitValue(c: char): nat
    requires IsDigit(c)
  {
    (c as int - '0' as int) as nat
  }

  /** The decimal numeral of `n`, as `str(n)` or an f-string writes it. */
  function NatToString(n: nat): (s: string)
    ensures |s| >= 1 && AllDigits(s)
    ensures s[0] == '0' ==> n == 0
  {
    if n < 10 then [DigitChar(n)] else NatToString(n / 10) + [DigitChar(n % 10)]
  }

  /** The value of a string of decimal digits, as `int()` reads it (leading zeros allowed). */
  function ParseNat(s: string): nat
    requires AllDigits(s)
  {
    if s == [] then 0 else 10 * ParseNat(s[..|s| - 1]) + DigitValue(s[|s| - 1])
  }

  lemma {:induction false} ParseNatToString(n: nat)
    ensures ParseNat(NatToString(n)) == n
  {
    if n >= 10 {
      var s := NatToString(n);
      var prefix := NatToString(n / 10);
      assert s[..|s| - 1] == prefix;
      ParseNatToString(n / 10);
    }
  }

  /** Distinct numbers have distinct numerals. */
  lemma NatToStringInjective(m: nat, n: nat)
    requires NatToString(m) == NatToString(n)
    ensures m == n
  {
    ParseNatToString(m);
    ParseNatToString(n);
  }

  predicate StartsWith(s: string, prefix: string) {
    |prefix| <= |s| && s[..|prefix|] == prefix
  }

  predicate EndsWith(s: string, suffix: string) {
    |suffix| <= |s| && s[|s| - |suffix|..] == suffix
  }

  /** `sub` occurs in `s` at position `i`. */
  predicate OccursAt(s: string, sub: string, i: nat) {
    i + |sub| <= |s| && s[i..i + |sub|] == sub
  }

  predicate Contains(s: string, sub: string) {
    exists i: nat :: i <= |s| && OccursAt(s, sub, i)
  }

  /** Position of the first occurrence of a non-empty `sub` at or after `from`, if any. */
  function FindFrom(s: string, sub: string, from: nat): (r: int)
    requires |sub| > 0
    ensures r == -1 || (from <= r && OccursAt(s, sub, r))
    ensures r == -1 ==> forall i: nat :: from <= i ==> !OccursAt(s, sub, i)
    ensures r >= 0 ==> forall i: nat :: from <= i < r ==> !OccursAt(s, sub, i)
    decreases |s| - from
  {
    if from + |sub| > |s| then -1
    else if s[from..from + |sub|] == sub then from
    else FindFrom(s, sub, from + 1)
  }

  /** `s.split(sep)[0]`: everything before the first occurrence of `sep`, or all of `s`. */
  function BeforeFirst(s: string, sep: string): (r: string)
    requires |sep| > 0
    ensures StartsWith(s, r)
    ensures !Contains(r, sep)
    ensures Contains(s, sep) ==> OccursAt(s, sep, |r|)
    ensures !Contains(s, sep) ==> r == s
  {
    var i := FindFrom(s, sep, 0);
    if i < 0 then
      s
    else
      assert forall k: nat :: OccursAt(s[..i], sep, k) ==> OccursAt(s, sep, k) by {
        forall k: nat | OccursAt(s[..i], sep, k) ensures OccursAt(s, sep, k) {
          assert s[..i][k..k + |sep|] == s[k..k + |sep|];
        }
      }
      s[..i]
  }

  /** `s.replace(pat, rep)`: left-to-right, non-overlapping replacement of every occurrence. */
  function ReplaceAll(s: string, pat: string, rep: string): (r: string)
    requires |pat| > 0
    decreases |s|
  {
    if |s| < |pat| then s
    else if s[..|pat|] == pat then rep + ReplaceAll(s[|pat|..], pat, rep)
    else [s[0]] + ReplaceAll(s[1..], pat, rep)
  }

  /** Replacing a pattern that does not occur changes nothing. */
  lemma {:induction false} ReplaceAbsent(s: string, pat: string, rep: string)
    requires |pat| > 0 && !Contains(s, pat)
    ensures ReplaceAll(s, pat, rep) == s
    decreases |s|
  {
    if |s| >= |pat| {
      assert !OccursAt(s, pat, 0);
      assert !Contains(s[1..], pat) by {
        forall i: nat | OccursAt(s[1..], pat, i) ensures false {
          assert s[1..][i..i + |pat|] == s[i + 1..i + 1 + |pat|];
          assert OccursAt(s, pat, i + 1);
        }
      }
      ReplaceAbsent(s[1..], pat, rep);
      assert s == [s[0]] + s[1..];
    }
  }

  /** Replacement distributes over a concatenation whose left part ends before any match could straddle it. */
  lemma {:induction false} ReplaceAppendSuffix(s: string, pat: string, rep: string)
    requires |pat| > 0 && !Contains(s, pat)
    requires forall i: nat :: i < |s| ==> !OccursAt(s + pat, pat, i)
    ensures ReplaceAll(s + pat, pat, rep) == s + rep
    decreases |s|
  {
    if |s| == 0 {
      assert (s + pat)[..|pat|] == pat;
      assert (s + pat)[|pat|..] == [];
    } else {
      var t := s + pat;
      assert !OccursAt(t, pat, 0);
      assert t[1..] == s[1..] + pat;
      assert !Contains(s[1..], pat) by {
        forall i: nat | OccursAt(s[1..], pat, i) ensures false {
          assert s[1..][i..i + |pat|] == s[i + 1..i + 1 + |pat|];
          assert OccursAt(s, pat, i + 1);
        }
      }
      forall i: nat | i < |s[1..]| ensures !OccursAt(s[1..] + pat, pat, i) {
        assert (s[1..] + pat)[i..] == t[i + 1..];
        assert !OccursAt(t, pat, i + 1);
      }
      ReplaceAppendSuffix(s[1..], pat, rep);
      if |t| < |pat| {
      } else {
        assert t[..|pat|] != pat;
      }
      assert ReplaceAll(t, pat, rep) == [t[0]] + ReplaceAll(t[1..], pat, rep);
    }
  }

  function LowerChar(c: char): char {
    if 'A' <= c <= 'Z' then (c as int + 32) as char else c
  }

  function Lower(s: string): (r: string)
    ensures |r| == |s| && forall i :: 0 <= i < |s| ==> r[i] == LowerChar(s[i])
  {
    if s == [] then [] else [LowerChar(s[0])] + Lower(s[1..])
  }

  /** Index of the last `c` in `s`, or -1. */
  function LastIndexOf(s: string, c: char): (r: int)
    ensures -1 <= r < |s|
    ensures r >= 0 ==> s[r] == c
    ensures forall i :: r < i < |s| ==> s[i] != c
  {
    if s == [] then -1
    else if s[|s| - 1] == c then |s| - 1
    else LastIndexOf(s[..|s| - 1], c)
  }

  /**
   * `os.path.splitext`: the extension starts at the last dot of the last path
   * component, unless everything before that dot in the component is dots.
   */
  function Splitext(p: string): (r: (string, string))
    ensures r.0 + r.1 == p
    ensures r.1 == [] || (r.1[0] == '.' && forall i :: 1 <= i < |r.1| ==> r.1[i] != '.' && r.1[i] != '/')
  {
    var sep := LastIndexOf(p, '/');
    var dot := LastIndexOf(p, '.');
    if dot > sep && exists k :: sep + 1 <= k < dot && p[k] != '.' then
      assert p[..dot] + p[dot..] == p;
      (p[..dot], p[dot..])
    else
      (p, [])
  }

  /** `sep.join(parts)`. */
  function Join(parts: seq<string>, sep: string): string {
    if parts == [] then []
    else if |parts| == 1 then parts[0]
    else parts[0] + sep + Join(parts[1..], sep)
  }

  /** Joining one more part appends the separator and that part. */
  lemma {:induction false} JoinSnoc(parts: seq<string>, last: string, sep: string)
    requires |parts| >= 1
    ensures Join(parts + [last], sep) == Join(parts, sep) + sep + last
  {
    if |parts| == 1 {
      assert (parts + [last])[1..] == [last];
    } else {
      assert (parts + [last])[1..] == parts[1..] + [last];
      JoinSnoc(parts[1..], last, sep);
    }
  }

  /** Everything after the last `c`: `s.split(c)[-1]`. */
  function AfterLast(s: string, c: char): (r: string)
    ensures c !in r
    ensures EndsWith(s, r)
  {
    var i := LastIndexOf(s, c);
    s[i + 1..]
  }

  /** The characters `str.splitlines` breaks at. */
  predicate IsLineBreak(c: char) {
    var n := c as int;
    (0x0A <= n <= 0x0D) || (0x1C <= n <= 0x1E) || n == 0x85 || (0x2028 <= n <= 0x2029)
  }

  /**
   * Reading a file in text mode (universal newlines): every "\r\n" and every
   * lone "\r" becomes "\n"; nothing else changes.
   */
  function UniversalNewlines(s: string): (r: string)
    ensures '\r' !in r
    ensures |r| <= |s|
    ensures forall c :: c in s && c != '\r' ==> c in r
  {
    if s == [] then []
    else if s[0] == '\r' then
      ['\n'] + if |s| > 1 && s[1] == '\n' then UniversalNewlines(s[2..]) else UniversalNewlines(s[1..])
    else
      assert forall c :: c in s && c != s[0] ==> c in s[1..];
      [s[0]] + UniversalNewlines(s[1..])
  }

  /** Index of the first line break of `s`, or |s|. */
  function FirstBreak(s: string): (i: nat)
    ensures i <= |s|
  {
    if s == [] || IsLineBreak(s[0]) then 0 else 1 + FirstBreak(s[1..])
  }

  /** The first break is a break, and no character before it is one. */
  lemma {:induction false} BeforeFirstBreak(s: string)
    ensures FirstBreak(s) < |s| ==> IsLineBreak(s[FirstBreak(s)])
    ensures forall k :: 0 <= k < FirstBreak(s) ==> !IsLineBreak(s[k])
  {
    if s != [] && !IsLineBreak(s[0]) {
      BeforeFirstBreak(s[1..]);
      assert forall k :: 1 <= k < FirstBreak(s) ==> s[k] == s[1..][k - 1];
    }
  }

  /** `str.splitlines()`: lines without their ends; "\r\n" is one break and a final break adds no empty line. */
  function SplitLines(s: string): seq<string>
    decreases |s|
  {
    if s == [] then []
    else if FirstBreak(s) == |s| then [s]
    else [FirstLine(s)] + SplitLines(AfterFirstBreak(s))
  }

  /** The text before the first break. */
  function FirstLine(s: string): string
  {
    s[..FirstBreak(s)]
  }

  /** The text after the first break and its "\n" when it is "\r\n". */
  function AfterFirstBreak(s: string): (r: string)
    requires FirstBreak(s) < |s|
    ensures |r| < |s|
  {
    s[FirstBreak(s) + BreakWidth(s, FirstBreak(s))..]
  }

  /** The length of the break at `i`: two for "\r\n", else one. */
  function BreakWidth(s: string, i: nat): (w: nat)
    requires i < |s|
    ensures 1 <= w <= |s| - i
  {
    if s[i] == '\r' && i + 1 < |s| && s[i + 1] == '\n' then 2 else 1
  }

  /** One step of `str.splitlines`: the text before the first break, then the lines after it. */
  lemma SplitLinesAt(s: string, i: nat)
    requires i < |s| && IsLineBreak(s[i]) && forall k :: 0 <= k < i ==> !IsLineBreak(s[k])
    ensures SplitLines(s) == [s[..i]] + SplitLines(s[i + BreakWidth(s, i)..])
  {
    assert FirstBreak(s) == i by { FirstBreakAt(s, i); }
    SplitLinesStep(s);
  }

  /** The unfolding of `str.splitlines` at the first break of a text that has one. */
  lemma SplitLinesStep(s: string)
    requires FirstBreak(s) < |s|
    ensures SplitLines(s) == [FirstLine(s)] + SplitLines(AfterFirstBreak(s))
  {
  }

  predicate NoLineBreak(s: string) {
    forall k :: 0 <= k < |s| ==> !IsLineBreak(s[k])
  }

  /** Lines joined with "\n" split back into the same lines, provided none holds a break and the last is not empty. */
  lemma {:induction false} SplitJoinedLines(lines: seq<string>)
    requires forall i :: 0 <= i < |lines| ==> NoLineBreak(lines[i])
    requires lines != [] ==> lines[|lines| - 1] != []
    ensures SplitLines(Join(lines, "\n")) == lines
  {
    if |lines| == 1 {
      BeforeFirstBreak(lines[0]);
    } else if |lines| > 1 {
      var rest := Join(lines[1..], "\n");
      assert Join(lines, "\n") == lines[0] + "\n" + rest;
      SplitFirstLine(lines[0], rest);
      SplitJoinedLines(lines[1..]);
      assert lines == [lines[0]] + lines[1..];
    }
  }

  /** A line without breaks followed by "\n" is split off as the first line. */
  lemma SplitFirstLine(line: string, rest: string)
    requires NoLineBreak(line)
    ensures SplitLines(line + "\n" + rest) == [line] + SplitLines(rest)
  {
    var s := line + "\n" + rest;
    assert s[..|line|] == line;
    FirstBreakAt(s, |line|);
    assert s[|line| + 1..] == rest;
  }

  lemma {:induction false} FirstBreakAt(s: string, i: nat)
    requires i < |s| && IsLineBreak(s[i]) && forall k :: 0 <= k < i ==> !IsLineBreak(s[k])
    ensures FirstBreak(s) == i
  {
    if i > 0 {
      var t := s[1..];
      assert forall k :: 0 <= k < i - 1 ==> t[k] == s[k + 1];
      FirstBreakAt(t, i - 1);
    }
  }

  /** `str.splitlines` on a concatenation splits each part on its own when the first part is empty or ends with "\n". */
  lemma {:induction false} SplitLinesConcat(t: string, u: string)
    requires t == [] || t[|t| - 1] == '\n'
    ensures SplitLines(t + u) == SplitLines(t) + SplitLines(u)
    decreases |t|
  {
    if t == [] {
      assert t + u == u;
    } else {
      var i := FirstBreak(t);
      var rest := FirstLineOfConcat(t, u, i);
      SplitLinesConcat(rest, u);
      Regroup(SplitLines(t + u), [t[..i]], SplitLines(rest), SplitLines(u), SplitLines(t));
    }
  }

  /** The first line of `t + u` is the first line of `t`, when `t` ends with "\n"; what follows is the rest of `t`, then `u`. */
  lemma FirstLineOfConcat(t: string, u: string, i: nat) returns (rest: string)
    requires t != [] && t[|t| - 1] == '\n' && i == FirstBreak(t)
    ensures i < |t| && |rest| < |t| && (rest == [] || rest[|rest| - 1] == '\n')
    ensures SplitLines(t) == [t[..i]] + SplitLines(rest)
    ensures SplitLines(t + u) == [t[..i]] + SplitLines(rest + u)
  {
    BeforeFirstBreak(t);
    assert i < |t|;
    var w := BreakWidth(t, i);
    rest := t[i + w..];
    SplitLinesAt(t, i);
    PrefixBreaks(t, u, i);
    SplitLinesAt(t + u, i);
    DropOfConcat(t, u, i + w);
  }

  lemma Regroup<T>(x: seq<T>, a: seq<T>, b: seq<T>, c: seq<T>, d: seq<T>)
    requires x == a + (b + c) && d == a + b
    ensures x == d + c
  {
  }

  lemma PrefixBreaks(t: string, u: string, i: nat)
    requires i < |t| && IsLineBreak(t[i]) && forall k :: 0 <= k < i ==> !IsLineBreak(t[k])
    requires t[|t| - 1] == '\n'
    ensures var s := t + u; IsLineBreak(s[i]) && (forall k :: 0 <= k < i ==> !IsLineBreak(s[k]))
    ensures (t + u)[..i] == t[..i] && BreakWidth(t + u, i) == BreakWidth(t, i)
  {
  }

  lemma DropOfConcat<T>(t: seq<T>, u: seq<T>, j: nat)
    requires j <= |t|
    ensures (t + u)[j..] == t[j..] + u
  {
  }

  lemma AppendAssoc<T>(a: seq<T>, b: seq<T>, c: seq<T>)
    ensures a + (b + c) == (a + b) + c
  {
  }

  /** A single line followed by "\n" is one line for `str.splitlines`. */
  lemma OneLine(a: string)
    requires NoLineBreak(a)
    ensures SplitLines(a + "\n") == [a]
  {
    var s := a + "\n";
    FirstBreakAt(s, |a|);
    assert s[..|a|] == a;
    assert s[|a| + 1..] == [];
  }

  /** The characters `str.isspace` accepts (and `str.strip()` removes). */
  predicate IsSpace(c: char) {
    c == ' ' || c == '\t' || IsLineBreak(c) || c == '\U{001F}' || c == '\U{00A0}' || c == '\U{1680}' ||
    ('\U{2000}' <= c <= '\U{200A}') || c == '\U{202F}' || c == '\U{205F}' || c == '\U{3000}'
  }

  /** `s.lstrip()`. */
  function StripStart(s: string): (r: string)
    ensures EndsWith(s, r)
    ensures r == [] || !IsSpace(r[0])
    ensures forall k :: 0 <= k < |s| - |r| ==> IsSpace(s[k])
  {
    if s != [] && IsSpace(s[0]) then StripStart(s[1..]) else s
  }

  /** `s.rstrip()`. */
  function StripEnd(s: string): (r: string)
    ensures StartsWith(s, r)
    ensures r == [] || !IsSpace(r[|r| - 1])
    ensures forall k :: |r| <= k < |s| ==> IsSpace(s[k])
  {
    if s != [] && IsSpace(s[|s| - 1]) then StripEnd(s[..|s| - 1]) else s
  }

  /** `s.strip()`: the part of `s` between its leading and trailing whitespace. */
  function Strip(s: string): (r: string)
    ensures r == [] || (!IsSpace(r[0]) && !IsSpace(r[|r| - 1]))
    ensures r == [] <==> forall k :: 0 <= k < |s| ==> IsSpace(s[k])
    ensures |r| <= |s|
  {
    var t := StripStart(s);
    var r := StripEnd(t);
    assert r != [] ==> r[0] == t[0];
    assert r == [] ==> forall k :: 0 <= k < |s| ==> IsSpace(s[k]) by {
      if r == [] {
        assert t == [];
      }
    }
    r
  }

  lemma StripIdempotent(s: string)
    ensures Strip(Strip(s)) == Strip(s)
  {
    var r := Strip(s);
    if r != [] {
      assert StripStart(r) == r;
      assert StripEnd(r) == r;
    }
  }

  /** `s.split(c)`: the pieces between the occurrences of `c`; joining them with `c` gives `s` back. */
  function Split(s: string, c: char): (r: seq<string>)
    ensures |r| >= 1
    ensures forall i :: 0 <= i < |r| ==> c !in r[i]
    ensures Join(r, [c]) == s
    decreases |s|
  {
    var i := IndexOf(s, c);
    if i == |s| then [s]
    else
      var rest := Split(s[i + 1..], c);
      assert s == s[..i] + [c] + s[i + 1..];
      [s[..i]] + rest
  }

  /** Index of the first `c` in `s`, or |s|. */
  function IndexOf(s: string, c: char): (i: nat)
    ensures i <= |s|
    ensures i < |s| ==> s[i] == c
    ensures c !in s[..i]
  {
    if s == [] || s[0] == c then 0 else 1 + IndexOf(s[1..], c)
  }

  /** `os.path.basename`: everything after the last '/'. */
  function Basename(p: string): (r: string)
    ensures '/' !in r && EndsWith(p, r)
  {
    AfterLast(p, '/')
  }

  /** `os.path.join(a, b)` for two components: `b` when it is absolute, else `a` and `b` with one '/' between. */
  function PathJoin(a: string, b: string): (r: string)
    ensures StartsWith(b, "/") ==> r == b
    ensures !StartsWith(b, "/") ==> EndsWith(r, b) && StartsWith(r, a)
  {
    if StartsWith(b, "/") then b
    else if a == [] || a[|a| - 1] == '/' then a + b
    else a + "/" + b
  }

  /** Python's string order: code points compared left to right, a proper prefix first. */
  predicate StrLe(a: string, b: string)
    decreases |a|
  {
    a == [] || (b != [] && (a[0] < b[0] || (a[0] == b[0] && StrLe(a[1..], b[1..]))))
  }

  lemma {:induction false} StrLeTotal(a: string, b: string)
    ensures StrLe(a, b) || StrLe(b, a)
    decreases |a|
  {
    if a != [] && b != [] && a[0] == b[0] {
      StrLeTotal(a[1..], b[1..]);
    }
  }

  lemma {:induction false} StrLeTrans(a: string, b: string, c: string)
    requires StrLe(a, b) && StrLe(b, c)
    ensures StrLe(a, c)
    decreases |a|
  {
    if a != [] && b != [] && c != [] && a[0] == b[0] && b[0] == c[0] {
      StrLeTrans(a[1..], b[1..], c[1..]);
    }
  }

  /** Two names that sort no later than each other are the same name. */
  lemma {:induction false} StrLeAntisymmetric(a: string, b: string)
    requires StrLe(a, b) && StrLe(b, a)
    ensures a == b
    decreases |a|
  {
    if a != [] {
      StrLeAntisymmetric(a[1..], b[1..]);
      assert a == [a[0]] + a[1..] && b == [b[0]] + b[1..];
    }
  }

  /** Hexadecimal digits, either case. */
  predicate IsHexDigit(c: char) {
    '0' <= c <= '9' || 'a' <= c <= 'f' || 'A' <= c <= 'F'
  }

  function HexValue(c: char): (v: nat)
    requires IsHexDigit(c)
    ensures v < 16
  {
    if '0' <= c <= '9' then c as int - '0' as int
    else if 'a' <= c <= 'f' then c as int - 'a' as int + 10
    else c as int - 'A' as int + 10
  }

  /** The upper-case digit of a value below 16. */
  function HexDigit(d: nat): (c: char)
    requires d < 16
    ensures IsHexDigit(c) && HexValue(c) == d
  {
    if d < 10 then ('0' as int + d) as char else ('A' as int + d - 10) as char
  }
}
