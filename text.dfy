/**
 * JavaScript string operations used by the core: the `\s` character class,
 * prefix tests, substring search, `split`, `join`, `trim`, ASCII lower-casing
 * and decimal digits. Strings are sequences of Unicode scalar values.
 */
module Text {
  import opened Wrappers

  /** JavaScript's `\s`: the WhiteSpace and LineTerminator characters of ECMA-262. */
  predicate IsWhitespace(c: char) {
    c == '\t' || c == '\n' || c == '\U{000B}' || c == '\U{000C}' || c == '\r' || c == ' '
    || c == '\U{00A0}' || c == '\U{1680}' || ('\U{2000}' <= c <= '\U{200A}')
    || c == '\U{2028}' || c == '\U{2029}' || c == '\U{202F}' || c == '\U{205F}'
    || c == '\U{3000}' || c == '\U{FEFF}'
  }

  predicate IsDigit(c: char) { '0' <= c <= '9' }

  predicate IsAsciiLetter(c: char) { ('a' <= c <= 'z') || ('A' <= c <= 'Z') }

  /** JavaScript's `\w`: `[A-Za-z0-9_]`. */
  predicate IsWordChar(c: char) { IsAsciiLetter(c) || IsDigit(c) || c == '_' }

  /** `[\w-]` */
  predicate IsWordOrHyphen(c: char) { IsWordChar(c) || c == '-' }

  /** `[\w.-]` */
  predicate IsWordDotOrHyphen(c: char) { IsWordChar(c) || c == '.' || c == '-' }

  /** `[\d.]` */
  predicate IsDigitOrDot(c: char) { IsDigit(c) || c == '.' }

  predicate AllChars(s: string, p: char -> bool) {
    forall k :: 0 <= k < |s| ==> p(s[k])
  }

  predicate StartsWith(s: string, prefix: string) {
    |prefix| <= |s| && s[..|prefix|] == prefix
  }

  predicate EndsWith(s: string, suffix: string) {
    |suffix| <= |s| && s[|s| - |suffix|..] == suffix
  }

  /** `s.includes(p)` */
  predicate Contains(s: string, p: string)
    decreases |s|
  {
    StartsWith(s, p) || (|s| > 0 && Contains(s[1..], p))
  }

  lemma ContainsAt(s: string, p: string, i: nat)
    requires i <= |s| && StartsWith(s[i..], p)
    ensures Contains(s, p)
    decreases i
  {
    if i > 0 {
      assert s[1..][i - 1..] == s[i..];
      ContainsAt(s[1..], p, i - 1);
    }
  }

  lemma ContainsNowhere(s: string, p: string)
    requires forall i :: 0 <= i <= |s| ==> !StartsWith(s[i..], p)
    ensures !Contains(s, p)
    decreases |s|
  {
    assert s[0..] == s;
    if |s| > 0 {
      forall i | 0 <= i <= |s[1..]|
        ensures !StartsWith(s[1..][i..], p)
      {
        assert s[1..][i..] == s[i + 1..];
      }
      ContainsNowhere(s[1..], p);
    }
  }

  /** The first index `j >= i` at which `p` occurs in `s` (`s.indexOf(p, i)`), if any. */
  function FindFrom(s: string, p: string, i: nat): (r: Option<nat>)
    requires i <= |s|
    ensures r.Some? ==> i <= r.value <= |s| && StartsWith(s[r.value..], p)
    ensures r.Some? ==> forall j :: i <= j < r.value ==> !StartsWith(s[j..], p)
    ensures r.None? ==> forall j :: i <= j <= |s| ==> !StartsWith(s[j..], p)
    decreases |s| - i
  {
    if i + |p| > |s| then None
    else if StartsWith(s[i..], p) then Some(i)
    else FindFrom(s, p, i + 1)
  }

  /** One differing character rules a prefix out. */
  lemma NotStartsWithAt(s: string, p: string, k: nat)
    requires k < |p| && k < |s| && s[k] != p[k]
    ensures !StartsWith(s, p)
  {
    if |p| <= |s| {
      assert s[..|p|][k] == s[k];
    }
  }

  /** The text after a prefix starts with what follows the prefix. */
  lemma TailOf(a: string, b: string)
    ensures (a + b)[|a|..] == b && StartsWith((a + b)[|a|..], b)
  {
    assert (a + b)[|a|..] == b;
    assert b[..|b|] == b;
  }

  /** An occurrence at `k` with none in `[i, k)` is the one `FindFrom` returns. */
  lemma FindFromFirst(s: string, p: string, i: nat, k: nat)
    requires i <= k <= |s| && StartsWith(s[k..], p)
    requires forall j :: i <= j < k ==> !StartsWith(s[j..], p)
    ensures FindFrom(s, p, i) == Some(k)
  {
  }

  /** The end of the run of characters satisfying `p` that starts at `i`. */
  function RunEnd(s: string, i: nat, p: char -> bool): (j: nat)
    requires i <= |s|
    ensures i <= j <= |s|
    ensures forall k :: i <= k < j ==> p(s[k])
    ensures j < |s| ==> !p(s[j])
    decreases |s| - i
  {
    if i < |s| && p(s[i]) then RunEnd(s, i + 1, p) else i
  }

  /** A run of `p` characters followed by one that is not `p` (or by the end) ends where it visibly ends. */
  lemma RunEndAt(s: string, i: nat, x: string, rest: string, p: char -> bool)
    requires i <= |s| && s[i..] == x + rest && AllChars(x, p)
    requires |rest| == 0 || !p(rest[0])
    ensures RunEnd(s, i, p) == i + |x|
  {
    forall k | i <= k < i + |x| ensures p(s[k]) {
      assert s[k] == s[i..][k - i] == x[k - i];
    }
    if i + |x| < |s| {
      assert s[i + |x|] == s[i..][|x|] == rest[0];
    }
  }

  /** The start of the run of characters satisfying `p` that ends just before `j`. */
  function RunStart(s: string, j: nat, p: char -> bool): (b: nat)
    requires j <= |s|
    ensures b <= j
    ensures forall k :: b <= k < j ==> p(s[k])
    ensures b > 0 ==> !p(s[b - 1])
    decreases j
  {
    if j > 0 && p(s[j - 1]) then RunStart(s, j - 1, p) else j
  }

  /** A run of `p` characters preceded by one that is not `p` (or by the start) starts where it visibly starts. */
  lemma RunStartAt(s: string, j: nat, before: string, x: string, p: char -> bool)
    requires j <= |s| && s[..j] == before + x && AllChars(x, p)
    requires |before| == 0 || !p(before[|before| - 1])
    ensures RunStart(s, j, p) == |before|
  {
    forall k | |before| <= k < j ensures p(s[k]) {
      assert s[k] == s[..j][k] == x[k - |before|];
    }
    if |before| > 0 {
      assert s[|before| - 1] == s[..j][|before| - 1] == before[|before| - 1];
    }
  }

  /** ASCII lower-casing; every other character is left alone. */
  function LowerChar(c: char): char {
    if 'A' <= c <= 'Z' then (c as int + 32) as char else c
  }

  function ToLower(s: string): (r: string)
    ensures |r| == |s|
    ensures forall k :: 0 <= k < |s| ==> r[k] == LowerChar(s[k])
  {
    seq(|s|, k requires 0 <= k < |s| => LowerChar(s[k]))
  }

  /** `s.trim()`: drops the leading and trailing `\s` characters. */
  function Trim(s: string): (r: string)
    ensures |r| == 0 || (!IsWhitespace(r[0]) && !IsWhitespace(r[|r| - 1]))
    ensures exists b, e ::
              (0 <= b <= e <= |s| && r == s[b..e]
               && (forall k :: 0 <= k < b ==> IsWhitespace(s[k]))
               && (forall k :: e <= k < |s| ==> IsWhitespace(s[k])))
  {
    var b := RunEnd(s, 0, IsWhitespace);
    if b == |s| then
      assert s[b..b] == "";
      ""
    else
      var e := RunStart(s, |s|, IsWhitespace);
      assert !IsWhitespace(s[b]);
      s[b..e]
  }

  /** `s.split(sep)` for a one-character separator. The result is never empty. */
  function Split(s: string, sep: char): (r: seq<string>)
    ensures |r| >= 1
    ensures forall k :: 0 <= k < |r| ==> sep !in r[k]
    decreases |s|
  {
    if |s| == 0 then [""]
    else
      var rest := Split(s[1..], sep);
      if s[0] == sep then [""] + rest
      else [[s[0]] + rest[0]] + rest[1..]
  }

  /** `parts.join(sep)` */
  function Join(parts: seq<string>, sep: string): string
    decreases |parts|
  {
    if |parts| == 0 then ""
    else if |parts| == 1 then parts[0]
    else parts[0] + sep + Join(parts[1..], sep)
  }

  /** `.filter(Boolean)` on strings: drops the empty ones. */
  function NonEmptyOnly(parts: seq<string>): (r: seq<string>)
    ensures forall k :: 0 <= k < |r| ==> r[k] != ""
    ensures |r| <= |parts|
  {
    if |parts| == 0 then []
    else if parts[0] == "" then NonEmptyOnly(parts[1..])
    else [parts[0]] + NonEmptyOnly(parts[1..])
  }

  /** `s.split(sep).filter(Boolean)` */
  function Segments(s: string, sep: char): (r: seq<string>)
    ensures forall k :: 0 <= k < |r| ==> r[k] != "" && sep !in r[k]
  {
    var parts := Split(s, sep);
    var r := NonEmptyOnly(parts);
    assert forall k :: 0 <= k < |r| ==> r[k] in parts by {
      NonEmptyOnlyFrom(parts);
    }
    r
  }

  lemma NonEmptyOnlyFrom(parts: seq<string>)
    ensures forall x :: x in NonEmptyOnly(parts) ==> x in parts
  {
    if |parts| > 0 {
      NonEmptyOnlyFrom(parts[1..]);
    }
  }

  /** Splitting a word that holds no separator yields that word alone. */
  lemma SplitSingle(a: string, sep: char)
    requires sep !in a
    ensures Split(a, sep) == [a]
    decreases |a|
  {
    if |a| > 0 {
      SplitSingle(a[1..], sep);
      assert [a[0]] + a[1..] == a;
    }
  }

  /** A word without separators, a separator and the rest split as the word followed by the rest's pieces. */
  lemma SplitCons(a: string, sep: char, b: string)
    requires sep !in a
    ensures Split(a + [sep] + b, sep) == [a] + Split(b, sep)
    decreases |a|
  {
    var s := a + [sep] + b;
    if |a| == 0 {
      assert s == [sep] + b;
      assert s[1..] == b;
    } else {
      assert s[1..] == a[1..] + [sep] + b;
      SplitCons(a[1..], sep, b);
      assert [a[0]] + a[1..] == a;
    }
  }

  /** A trailing separator-free piece splits off as the last part. */
  lemma {:induction false} SplitSnoc(a: string, sep: char, b: string)
    requires sep !in b
    ensures Split(a + [sep] + b, sep) == Split(a, sep) + [b]
    decreases |a|
  {
    var s := a + [sep] + b;
    if |a| == 0 {
      SplitCons(a, sep, b);
      SplitSingle(b, sep);
    } else {
      assert s[1..] == a[1..] + [sep] + b;
      SplitSnoc(a[1..], sep, b);
    }
  }

  /** Split is the inverse of Join on separator-free pieces. */
  lemma {:induction false} SplitJoin(parts: seq<string>, sep: char)
    requires |parts| >= 1
    requires forall k :: 0 <= k < |parts| ==> sep !in parts[k]
    ensures Split(Join(parts, [sep]), sep) == parts
    decreases |parts|
  {
    if |parts| == 1 {
      SplitSingle(parts[0], sep);
    } else {
      SplitJoin(parts[1..], sep);
      SplitCons(parts[0], sep, Join(parts[1..], [sep]));
      assert [parts[0]] + parts[1..] == parts;
    }
  }

  /** A path `/a/b/...` built from non-empty separator-free pieces splits back into those pieces. */
  lemma {:induction false} SegmentsOfPath(parts: seq<string>, sep: char)
    requires |parts| >= 1
    requires forall k :: 0 <= k < |parts| ==> parts[k] != "" && sep !in parts[k]
    ensures Segments([sep] + Join(parts, [sep]), sep) == parts
  {
    var s := [sep] + Join(parts, [sep]);
    assert s == [] + [sep] + Join(parts, [sep]);
    SplitCons([], sep, Join(parts, [sep]));
    SplitJoin(parts, sep);
    assert Split(s, sep) == [""] + parts;
    NonEmptyOnlyIdentity(parts);
  }

  lemma NonEmptyOnlyIdentity(parts: seq<string>)
    requires forall k :: 0 <= k < |parts| ==> parts[k] != ""
    ensures NonEmptyOnly(parts) == parts
    ensures NonEmptyOnly([""] + parts) == parts
  {
    assert ([""] + parts)[1..] == parts;
    if |parts| > 0 {
      NonEmptyOnlyIdentity(parts[1..]);
      assert [parts[0]] + parts[1..] == parts;
    }
  }

  /** The value of a decimal digit. */
  function DigitValue(c: char): nat
    requires IsDigit(c)
  {
    c as int - '0' as int
  }

  /** The value of a string of decimal digits (`""` is 0). */
  function DigitsValue(s: string): nat
    requires AllChars(s, IsDigit)
    decreases |s|
  {
    if |s| == 0 then 0
    else DigitsValue(s[..|s| - 1]) * 10 + DigitValue(s[|s| - 1])
  }

  function Pow10(k: nat): (r: nat)
    ensures r >= 1
  {
    if k == 0 then 1 else 10 * Pow10(k - 1)
  }

  function DigitChar(d: nat): (c: char)
    requires d < 10
    ensures IsDigit(c) && DigitValue(c) == d
  {
    ('0' as int + d) as char
  }

  /** `String(n)` for a natural number: decimal digits, no leading zeros. */
  function NatToString(n: nat): (r: string)
    ensures |r| >= 1 && AllChars(r, IsDigit)
    ensures DigitsValue(r) == n
    ensures |r| > 1 ==> r[0] != '0'
    decreases n
  {
    if n < 10 then [DigitChar(n)]
    else
      var r := NatToString(n / 10) + [DigitChar(n % 10)];
      assert r[..|r| - 1] == NatToString(n / 10);
      r
  }

  /** `String(i)` for an integer. */
  function IntToString(i: int): string {
    if i < 0 then "-" + NatToString(-i) else NatToString(i)
  }

  /** `s.repeat(n)` for a one-character string. */
  function Repeat(c: char, n: nat): (r: string)
    ensures |r| == n && forall k :: 0 <= k < n ==> r[k] == c
  {
    seq(n, _ => c)
  }
}
