/** String helpers with the meaning of the Python `str` operations the
    system relies on: `in`, `startswith`, `lower`, `strip`, slicing,
    `replace`, `join` and `str(int)`. */
module Text {

  predicate IsPrefix(p: string, s: string) {
    |p| <= |s| && s[..|p|] == p
  }

  predicate IsSuffix(p: string, s: string) {
    |p| <= |s| && s[|s| - |p|..] == p
  }

  /** Python `sub in s`. */
  predicate Contains(s: string, sub: string)
    decreases |s|
  {
    IsPrefix(sub, s) || (|s| > 0 && Contains(s[1..], sub))
  }

  /** `any(k in s for k in keys)` */
  predicate ContainsAny(s: string, keys: seq<string>) {
    exists i :: 0 <= i < |keys| && Contains(s, keys[i])
  }

  /** `s in keys` for a list of strings. */
  predicate InList(s: string, keys: seq<string>) {
    exists i :: 0 <= i < |keys| && keys[i] == s
  }

  function LowerChar(c: char): char {
    if 'A' <= c <= 'Z' then (c as int + 32) as char else c
  }

  /** Python `str.lower()` on the ASCII letters; other characters are kept. */
  function Lower(s: string): string {
    seq(|s|, i requires 0 <= i < |s| => LowerChar(s[i]))
  }

  /** Text without upper-case ASCII letters is its own lower case. */
  lemma LowerKeeps(s: string)
    requires forall i :: 0 <= i < |s| ==> !('A' <= s[i] <= 'Z')
    ensures Lower(s) == s
  {
  }

  lemma LowerIdempotent(s: string)
    ensures Lower(Lower(s)) == Lower(s)
  {
  }

  /** Python `str.isspace()` for one character: ASCII whitespace, the
      separators U+001C to U+001F, and the Unicode space characters. */
  predicate IsSpace(c: char) {
    c == ' ' || '\t' <= c <= '\r' || '\U{001C}' <= c <= '\U{001F}' || c == '\U{0085}' || c == '\U{00A0}' ||
    c == '\U{1680}' || '\U{2000}' <= c <= '\U{200A}' || c == '\U{2028}' || c == '\U{2029}' ||
    c == '\U{202F}' || c == '\U{205F}' || c == '\U{3000}'
  }

  function LStrip(s: string): string
    decreases |s|
  {
    if |s| > 0 && IsSpace(s[0]) then LStrip(s[1..]) else s
  }

  function RStrip(s: string): string
    decreases |s|
  {
    if |s| > 0 && IsSpace(s[|s| - 1]) then RStrip(s[..|s| - 1]) else s
  }

  /** Python `str.strip()` with no argument. */
  function Strip(s: string): string {
    RStrip(LStrip(s))
  }

  /** Python `str.lstrip(c)` for a single character. */
  function LStripChar(s: string, c: char): string
    decreases |s|
  {
    if |s| > 0 && s[0] == c then LStripChar(s[1..], c) else s
  }

  /** Python `str.rstrip(c)` for a single character. */
  function RStripChar(s: string, c: char): string
    decreases |s|
  {
    if |s| > 0 && s[|s| - 1] == c then RStripChar(s[..|s| - 1], c) else s
  }

  /** Python `xs[:n]`: a negative bound counts from the end. */
  function Take<T>(xs: seq<T>, n: int): seq<T> {
    if n >= 0 then (if n <= |xs| then xs[..n] else xs)
    else if |xs| + n >= 0 then xs[..|xs| + n]
    else []
  }

  function Min(a: int, b: int): int {
    if a <= b then a else b
  }

  function Max(a: int, b: int): int {
    if a >= b then a else b
  }

  /** Python `sep.join(parts)`. */
  function Join(sep: string, parts: seq<string>): string
    decreases |parts|
  {
    if |parts| == 0 then ""
    else if |parts| == 1 then parts[0]
    else parts[0] + sep + Join(sep, parts[1..])
  }

  /** Python `s.replace(pat, rep)`: every non-overlapping occurrence, left to right. */
  function ReplaceAll(s: string, pat: string, rep: string): string
    requires |pat| > 0
    decreases |s|
  {
    if |s| < |pat| then s
    else if IsPrefix(pat, s) then rep + ReplaceAll(s[|pat|..], pat, rep)
    else [s[0]] + ReplaceAll(s[1..], pat, rep)
  }

  function DigitChar(d: int): char
    requires 0 <= d < 10
  {
    ('0' as int + d) as char
  }

  /** Python `str(n)` for a natural number. */
  function NatToStr(n: nat): string
    decreases n
  {
    if n < 10 then [DigitChar(n)] else NatToStr(n / 10) + [DigitChar(n % 10)]
  }

  /** Python `str(n)` for an integer. */
  function IntToStr(n: int): string {
    if n < 0 then "-" + NatToStr(-n) else NatToStr(n)
  }

  /** Everything before the last occurrence of `c` (Python `s.rsplit(c, 1)[0]`). */
  function BeforeLast(s: string, c: char): string
    decreases |s|
  {
    if |s| == 0 then s
    else if s[|s| - 1] == c then s[..|s| - 1]
    else if exists i :: 0 <= i < |s| && s[i] == c then BeforeLast(s[..|s| - 1], c)
    else s
  }

  /** Everything before the first occurrence of `c` (Python `s.split(c)[0]`). */
  function BeforeFirst(s: string, c: char): string
    decreases |s|
  {
    if |s| == 0 then s
    else if s[0] == c then ""
    else [s[0]] + BeforeFirst(s[1..], c)
  }

  lemma {:induction false} ContainsAppendRight(s: string, t: string, sub: string)
    requires Contains(s, sub)
    ensures Contains(s + t, sub)
    decreases |s|
  {
    if IsPrefix(sub, s) {
      assert (s + t)[..|sub|] == s[..|sub|];
    } else {
      assert |s| > 0 && Contains(s[1..], sub);
      ContainsAppendRight(s[1..], t, sub);
      assert (s + t)[1..] == s[1..] + t;
    }
  }

  lemma {:induction false} ContainsAppendLeft(s: string, t: string, sub: string)
    requires Contains(t, sub)
    ensures Contains(s + t, sub)
    decreases |s|
  {
    if |s| > 0 {
      ContainsAppendLeft(s[1..], t, sub);
      assert (s + t)[1..] == s[1..] + t;
    } else {
      assert s + t == t;
    }
  }

  /** A text contains whatever stands in it at some position. */
  lemma {:induction false} ContainsAt(s: string, sub: string, i: nat)
    requires i + |sub| <= |s| && s[i..i + |sub|] == sub
    ensures Contains(s, sub)
    decreases i
  {
    if i > 0 {
      assert s[1..][i - 1..i - 1 + |sub|] == sub;
      ContainsAt(s[1..], sub, i - 1);
    } else {
      assert s[..|sub|] == sub;
    }
  }

  lemma {:induction false} ContainsItself(s: string)
    ensures Contains(s, s)
  {
    assert s[..|s|] == s;
  }

  lemma {:induction false} ContainsLength(s: string, sub: string)
    requires Contains(s, sub)
    ensures |sub| <= |s|
    decreases |s|
  {
    if !IsPrefix(sub, s) {
      ContainsLength(s[1..], sub);
    }
  }

  lemma {:induction false} ShorterContainsNothing(s: string, sub: string)
    requires |s| < |sub|
    ensures !Contains(s, sub)
    decreases |s|
  {
    if |s| > 0 {
      ShorterContainsNothing(s[1..], sub);
    }
  }

  /** A text lacking one of the characters of `sub` does not contain `sub`. */
  lemma {:induction false} MissingCharNotContained(s: string, sub: string, c: char)
    requires c in sub && c !in s
    ensures !Contains(s, sub)
    decreases |s|
  {
    if |s| > 0 {
      assert forall x :: x in s[1..] ==> x in s;
      MissingCharNotContained(s[1..], sub, c);
    }
  }

  /** `s.replace(pat, rep)` changes nothing when `pat` does not occur in `s`. */
  lemma {:induction false} ReplaceAbsent(s: string, pat: string, rep: string)
    requires |pat| > 0
    requires !Contains(s, pat)
    ensures ReplaceAll(s, pat, rep) == s
    decreases |s|
  {
    if |s| >= |pat| {
      assert !IsPrefix(pat, s);
      ReplaceAbsent(s[1..], pat, rep);
      assert [s[0]] + s[1..] == s;
    }
  }

  /** Deleting occurrences (`s.replace(pat, "")`) never lengthens the text. */
  lemma {:induction false} ReplaceEmptyShrinks(s: string, pat: string)
    requires |pat| > 0
    ensures |ReplaceAll(s, pat, "")| <= |s|
    decreases |s|
  {
    if |s| >= |pat| {
      if IsPrefix(pat, s) {
        ReplaceEmptyShrinks(s[|pat|..], pat);
      } else {
        ReplaceEmptyShrinks(s[1..], pat);
      }
    }
  }

  lemma {:induction false} TakeLength<T>(xs: seq<T>, n: int)
    ensures n >= 0 ==> |Take(xs, n)| == Min(n, |xs|)
    ensures |Take(xs, n)| <= |xs|
    ensures forall i :: 0 <= i < |Take(xs, n)| ==> Take(xs, n)[i] == xs[i]
  {
  }

  predicate IsDigit(c: char) {
    '0' <= c <= '9'
  }

  /** Python `int(s)` on a string of decimal digits. */
  function ParseNat(s: string): nat
    requires forall i :: 0 <= i < |s| ==> IsDigit(s[i])
    decreases |s|
  {
    if |s| == 0 then 0
    else
      assert IsDigit(s[|s| - 1]);
      ParseNat(s[..|s| - 1]) * 10 + (s[|s| - 1] as int - '0' as int)
  }

  lemma {:induction false} NatToStrDigits(n: nat)
    ensures |NatToStr(n)| > 0
    ensures forall i :: 0 <= i < |NatToStr(n)| ==> IsDigit(NatToStr(n)[i])
    decreases n
  {
    if n >= 10 {
      NatToStrDigits(n / 10);
    }
  }

  /** `int(str(n)) == n`. */
  lemma {:induction false} ParseNatToStr(n: nat)
    ensures forall i :: 0 <= i < |NatToStr(n)| ==> IsDigit(NatToStr(n)[i])
    ensures ParseNat(NatToStr(n)) == n
    decreases n
  {
    NatToStrDigits(n);
    if n >= 10 {
      ParseNatToStr(n / 10);
      var s := NatToStr(n);
      assert s[..|s| - 1] == NatToStr(n / 10);
    }
  }

  /** After `rstrip(c)` the text no longer ends with `c`. */
  lemma {:induction false} RStripCharEnds(s: string, c: char)
    ensures IsPrefix(RStripChar(s, c), s)
    ensures |RStripChar(s, c)| == 0 || RStripChar(s, c)[|RStripChar(s, c)| - 1] != c
    decreases |s|
  {
    if |s| > 0 && s[|s| - 1] == c {
      RStripCharEnds(s[..|s| - 1], c);
    }
  }

  /** After `lstrip(c)` the text no longer starts with `c`. */
  lemma {:induction false} LStripCharStarts(s: string, c: char)
    ensures IsSuffix(LStripChar(s, c), s)
    ensures |LStripChar(s, c)| == 0 || LStripChar(s, c)[0] != c
    decreases |s|
  {
    if |s| > 0 && s[0] == c {
      LStripCharStarts(s[1..], c);
    }
  }

  /** The longest run of digits at the start of `s`. */
  function LeadingDigits(s: string): (d: string)
    ensures IsPrefix(d, s) && forall i :: 0 <= i < |d| ==> IsDigit(d[i])
    decreases |s|
  {
    if |s| > 0 && IsDigit(s[0]) then [s[0]] + LeadingDigits(s[1..]) else ""
  }

  lemma {:induction false} LeadingDigitsOf(d: string, t: string)
    requires forall i :: 0 <= i < |d| ==> IsDigit(d[i])
    requires |t| == 0 || !IsDigit(t[0])
    ensures LeadingDigits(d + t) == d
    decreases |d|
  {
    if |d| > 0 {
      assert (d + t)[1..] == d[1..] + t;
      LeadingDigitsOf(d[1..], t);
    } else {
      assert d + t == t;
    }
  }

  /** `a + b` starts with `a`, and what follows `a` is `b`. */
  lemma ConcatParts(a: string, b: string)
    ensures IsPrefix(a, a + b) && (a + b)[|a|..] == b
  {
    assert (a + b)[..|a|] == a;
  }

  /** Python `s.split(c)` for a single-character separator: always at least
      one part, none holding `c`. */
  function Split(s: string, c: char): (parts: seq<string>)
    ensures |parts| >= 1
    ensures forall k :: 0 <= k < |parts| ==> c !in parts[k]
    decreases |s|
  {
    if |s| == 0 then [""]
    else
      var rest := Split(s[1..], c);
      if s[0] == c then [""] + rest else [[s[0]] + rest[0]] + rest[1..]
  }

  /** Joining the parts with the separator gives back the string. */
  lemma {:induction false} SplitJoin(s: string, c: char)
    ensures Join([c], Split(s, c)) == s
    decreases |s|
  {
    if |s| > 0 {
      var rest := Split(s[1..], c);
      SplitJoin(s[1..], c);
      JoinCons([c], rest);
      if s[0] != c {
        JoinHead([c], [s[0]], rest);
      }
    }
  }

  /** `Join` of a non-empty list is its head, then the separator and the
      rest when there is a rest. */
  lemma JoinCons(sep: string, parts: seq<string>)
    requires |parts| >= 1
    ensures Join(sep, [""] + parts) == sep + Join(sep, parts)
  {
    assert ([""] + parts)[1..] == parts;
  }

  lemma {:induction false} JoinHead(sep: string, x: string, parts: seq<string>)
    requires |parts| >= 1
    ensures Join(sep, [x + parts[0]] + parts[1..]) == x + Join(sep, parts)
  {
    var q := [x + parts[0]] + parts[1..];
    assert q[1..] == parts[1..];
    if |parts| > 1 {
      assert Join(sep, parts) == parts[0] + sep + Join(sep, parts[1..]);
    }
  }
}
