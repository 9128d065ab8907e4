/**
 * The parts of Python's `str` that the three modules rely on, over the ASCII
 * range: character classes, `lower`, `strip`, `split`, `join`, `title`, the
 * substring test `in`, and the decimal rendering used by f-strings.
 */
module Text {
  import opened Seqs

  // ---------------------------------------------------------------------------
  // Character classes

  /** `c.isspace()` for the characters below 128: tab .. carriage return, the four separators, space. */
  predicate IsSpace(c: char)
  {
    c == ' ' || 9 <= c as int <= 13 || 28 <= c as int <= 31
  }

  predicate IsNewline(c: char) { c == '\n' }

  predicate IsAsciiLower(c: char) { 'a' <= c <= 'z' }

  predicate IsAsciiUpper(c: char) { 'A' <= c <= 'Z' }

  predicate IsAsciiLetter(c: char) { IsAsciiLower(c) || IsAsciiUpper(c) }

  predicate IsAsciiDigit(c: char) { '0' <= c <= '9' }

  predicate IsAsciiAlnum(c: char) { IsAsciiLetter(c) || IsAsciiDigit(c) }

  function ToLowerChar(c: char): char
  {
    if IsAsciiUpper(c) then (c as int + 32) as char else c
  }

  function ToUpperChar(c: char): char
  {
    if IsAsciiLower(c) then (c as int - 32) as char else c
  }

  /** `s.lower()`. */
  function Lower(s: string): string
  {
    seq(|s|, i requires 0 <= i < |s| => ToLowerChar(s[i]))
  }

  /** `s.title()`: a letter is upper-cased when it does not follow a letter, lower-cased otherwise. */
  function Title(s: string): (r: string)
    ensures |r| == |s|
    ensures forall i :: 0 <= i < |s| ==> (IsAsciiLetter(r[i]) <==> IsAsciiLetter(s[i]))
    ensures forall i :: 0 <= i < |s| && !IsAsciiLetter(s[i]) ==> r[i] == s[i]
  {
    TitleFrom(s, false)
  }

  function TitleFrom(s: string, afterLetter: bool): (r: string)
    ensures |r| == |s|
    ensures forall i :: 0 <= i < |s| ==> (IsAsciiLetter(r[i]) <==> IsAsciiLetter(s[i]))
    ensures forall i :: 0 <= i < |s| && !IsAsciiLetter(s[i]) ==> r[i] == s[i]
  {
    if s == [] then []
    else
      var c := if !IsAsciiLetter(s[0]) then s[0]
               else if afterLetter then ToLowerChar(s[0])
               else ToUpperChar(s[0]);
      [c] + TitleFrom(s[1..], IsAsciiLetter(s[0]))
  }

  // ---------------------------------------------------------------------------
  // strip

  /** The number of leading characters satisfying `p`. */
  function LeadCount(s: string, p: char -> bool): (n: nat)
    ensures n <= |s|
    ensures forall i :: 0 <= i < n ==> p(s[i])
    ensures n < |s| ==> !p(s[n])
  {
    if s == [] || !p(s[0]) then 0 else 1 + LeadCount(s[1..], p)
  }

  /** The number of trailing characters satisfying `p`. */
  function TrailCount(s: string, p: char -> bool): (n: nat)
    ensures n <= |s|
    ensures forall i :: |s| - n <= i < |s| ==> p(s[i])
    ensures n < |s| ==> !p(s[|s| - 1 - n])
  {
    if s == [] || !p(s[|s| - 1]) then 0 else 1 + TrailCount(s[..|s| - 1], p)
  }

  /** `s.strip(chars)` where `p` recognises the characters to strip. */
  function StripBy(s: string, p: char -> bool): (r: string)
    ensures LeadCount(s, p) + |r| <= |s|
    ensures r == s[LeadCount(s, p)..LeadCount(s, p) + |r|]
    ensures r != [] ==> !p(r[0]) && !p(r[|r| - 1])
    ensures r == [] <==> forall i :: 0 <= i < |s| ==> p(s[i])
    ensures s == [] || (!p(s[0]) && !p(s[|s| - 1])) ==> r == s
  {
    var t := s[LeadCount(s, p)..];
    t[..|t| - TrailCount(t, p)]
  }

  /** `s.strip()`. */
  function Strip(s: string): string
  {
    StripBy(s, IsSpace)
  }

  /** `not s.strip()`: the line is empty or whitespace only. */
  predicate IsBlank(s: string)
  {
    Strip(s) == []
  }

  // ---------------------------------------------------------------------------
  // split and join

  /** The position of the first character satisfying `p`, or `|s|`. */
  function FindFirst(s: string, p: char -> bool): (i: nat)
    ensures i <= |s|
    ensures i < |s| ==> p(s[i])
    ensures forall j :: 0 <= j < i ==> !p(s[j])
  {
    if s == [] || p(s[0]) then 0 else 1 + FindFirst(s[1..], p)
  }

  /**
   * Splits at every character satisfying `isSep`; like `s.split(sep)` there is
   * always at least one piece, and adjacent separators give empty pieces.
   */
  function SplitBy(s: string, isSep: char -> bool): (r: seq<string>)
    ensures |r| >= 1
    ensures forall k, i :: 0 <= k < |r| && 0 <= i < |r[k]| ==> !isSep(r[k][i])
    decreases |s|
  {
    var i := FindFirst(s, isSep);
    if i == |s| then [s] else [s[..i]] + SplitBy(s[i + 1..], isSep)
  }

  /** `filter(None, parts)`: the non-empty strings, in order. */
  function DropEmpty(parts: seq<string>): (r: seq<string>)
    ensures |r| <= |parts|
    ensures forall k :: 0 <= k < |r| ==> r[k] != []
    ensures forall x :: x in r <==> x in parts && x != []
  {
    if parts == [] then []
    else (if parts[0] == [] then [] else [parts[0]]) + DropEmpty(parts[1..])
  }

  /** `s.split()`: the maximal runs of non-whitespace characters. */
  function SplitWhitespace(s: string): (r: seq<string>)
    ensures forall k :: 0 <= k < |r| ==> r[k] != []
    ensures forall k, i :: 0 <= k < |r| && 0 <= i < |r[k]| ==> !IsSpace(r[k][i])
  {
    var pieces := SplitBy(s, IsSpace);
    var r := DropEmpty(pieces);
    assert forall k :: 0 <= k < |r| ==> r[k] in pieces;
    r
  }

  /** `sep.join(parts)`. */
  function Join(parts: seq<string>, sep: string): string
  {
    if |parts| == 0 then ""
    else if |parts| == 1 then parts[0]
    else parts[0] + sep + Join(parts[1..], sep)
  }

  /** A string without separators is a single piece. */
  lemma SplitWithoutSeparator(s: string, isSep: char -> bool)
    requires forall j :: 0 <= j < |s| ==> !isSep(s[j])
    ensures SplitBy(s, isSep) == [s]
  {
    assert FindFirst(s, isSep) == |s|;
  }

  /** The first piece ends at the first separator. */
  lemma SplitAtFirst(s: string, i: nat, isSep: char -> bool)
    requires i < |s| && isSep(s[i])
    requires forall j :: 0 <= j < i ==> !isSep(s[j])
    ensures SplitBy(s, isSep) == [s[..i]] + SplitBy(s[i + 1..], isSep)
  {
    assert FindFirst(s, isSep) == i;
  }

  /** Splitting a joined list of separator-free pieces gives the pieces back. */
  lemma {:induction false} SplitJoin(parts: seq<string>, sep: char, isSep: char -> bool)
    requires |parts| >= 1 && isSep(sep)
    requires forall k, i :: 0 <= k < |parts| && 0 <= i < |parts[k]| ==> !isSep(parts[k][i])
    ensures SplitBy(Join(parts, [sep]), isSep) == parts
  {
    var s := Join(parts, [sep]);
    var p := parts[0];
    if |parts| == 1 {
      SplitWithoutSeparator(p, isSep);
    } else {
      var rest := Join(parts[1..], [sep]);
      assert s == p + [sep] + rest;
      assert forall j :: 0 <= j < |p| ==> s[j] == p[j];
      SplitAtFirst(s, |p|, isSep);
      assert s[..|p|] == p;
      assert s[|p| + 1..] == rest;
      SplitJoin(parts[1..], sep, isSep);
      assert parts == [p] + parts[1..];
    }
  }

  /** Splitting at a separator between `x` and `y` splits `x` and `y` separately. */
  lemma {:induction false} SplitAroundSeparator(x: string, sep: char, y: string, isSep: char -> bool)
    requires isSep(sep)
    ensures SplitBy(x + [sep] + y, isSep) == SplitBy(x, isSep) + SplitBy(y, isSep)
    decreases |x|
  {
    var i := FindFirst(x, isSep);
    if i == |x| {
      SplitAroundSeparatorFree(x, sep, y, isSep);
    } else {
      SplitAroundSeparator(x[i + 1..], sep, y, isSep);
      SplitAroundSeparatorCons(x, i, sep, y, isSep);
    }
  }

  /** The inductive step: the piece before the first separator of `x` comes first on both sides. */
  lemma SplitAroundSeparatorCons(x: string, i: nat, sep: char, y: string, isSep: char -> bool)
    requires i < |x| && isSep(x[i]) && isSep(sep)
    requires forall j :: 0 <= j < i ==> !isSep(x[j])
    requires SplitBy(x[i + 1..] + [sep] + y, isSep) == SplitBy(x[i + 1..], isSep) + SplitBy(y, isSep)
    ensures SplitBy(x + [sep] + y, isSep) == SplitBy(x, isSep) + SplitBy(y, isSep)
  {
    SplitAtFirst(x, i, isSep);
    SplitAroundSeparatorStep(x, i, sep, y, isSep);
    AppendAssoc([x[..i]], SplitBy(x[i + 1..], isSep), SplitBy(y, isSep));
  }

  lemma SplitAroundSeparatorFree(x: string, sep: char, y: string, isSep: char -> bool)
    requires isSep(sep)
    requires forall j :: 0 <= j < |x| ==> !isSep(x[j])
    ensures SplitBy(x + [sep] + y, isSep) == SplitBy(x, isSep) + SplitBy(y, isSep)
  {
    var s := x + [sep] + y;
    SplitWithoutSeparator(x, isSep);
    assert s[..|x|] == x && s[|x|] == sep && s[|x| + 1..] == y;
    SplitAtFirst(s, |x|, isSep);
  }

  lemma SplitAroundSeparatorStep(x: string, i: nat, sep: char, y: string, isSep: char -> bool)
    requires i < |x| && isSep(x[i])
    requires forall j :: 0 <= j < i ==> !isSep(x[j])
    ensures SplitBy(x + [sep] + y, isSep) == [x[..i]] + SplitBy(x[i + 1..] + [sep] + y, isSep)
  {
    var s := x + [sep] + y;
    assert s[..i] == x[..i] && s[i] == x[i];
    assert s[i + 1..] == x[i + 1..] + [sep] + y;
    SplitAtFirst(s, i, isSep);
  }

  // ---------------------------------------------------------------------------
  // substring test

  /** `pat in s`. */
  predicate Contains(s: string, pat: string)
    decreases |s|
  {
    pat <= s || (s != [] && Contains(s[1..], pat))
  }

  /** A pattern starting with `q` does not occur in a string without `q`. */
  lemma {:induction false} NotContainsMissingChar(s: string, pat: string, q: char)
    requires |pat| > 0 && pat[0] == q && q !in s
    ensures !Contains(s, pat)
    decreases |s|
  {
    if s != [] {
      assert s[0] != q;
      assert s[1..] <= s[1..] && forall x :: x in s[1..] ==> x in s;
      NotContainsMissingChar(s[1..], pat, q);
    }
  }

  /** An occurrence of a pattern made only of `q` cannot reach into a prefix free of `q`. */
  lemma {:induction false} ContainsDropPrefix(a: string, x: string, pat: string, q: char)
    requires |pat| > 0 && forall i :: 0 <= i < |pat| ==> pat[i] == q
    requires q !in a
    requires Contains(a + x, pat)
    ensures Contains(x, pat)
    decreases |a|
  {
    if a != [] {
      assert (a + x)[0] == a[0] != q;
      assert !(pat <= a + x);
      assert (a + x)[1..] == a[1..] + x;
      assert forall c :: c in a[1..] ==> c in a;
      ContainsDropPrefix(a[1..], x, pat, q);
    } else {
      assert a + x == x;
    }
  }

  /** An occurrence of a pattern made only of `q` cannot reach into a suffix free of `q`. */
  lemma {:induction false} ContainsDropSuffix(x: string, c: string, pat: string, q: char)
    requires |pat| > 0 && forall i :: 0 <= i < |pat| ==> pat[i] == q
    requires q !in c
    requires Contains(x + c, pat)
    ensures Contains(x, pat)
    decreases |x|
  {
    if x == [] {
      assert x + c == c;
      NotContainsMissingChar(c, pat, q);
    } else if pat <= x + c {
      PrefixReachingSuffix(pat, x, c);
      assert |pat| <= |x|;
      assert forall i :: 0 <= i < |pat| ==> pat[i] == (x + c)[i] == x[i];
    } else {
      assert (x + c)[1..] == x[1..] + c;
      ContainsDropSuffix(x[1..], c, pat, q);
    }
  }

  /** A prefix of `x + c` that is longer than `x` has `c[0]` right after `x`. */
  lemma PrefixReachingSuffix(pat: string, x: string, c: string)
    ensures pat <= x + c && |pat| > |x| ==> c != [] && pat[|x|] == c[0]
  {
    if pat <= x + c && |pat| > |x| {
      assert pat[|x|] == (x + c)[|x|];
    }
  }

  /** If `r` has `q` only where `s` has `q`, a pattern of `q`s in `r` is also in `s`. */
  lemma {:induction false} ContainsTransfer(r: string, s: string, pat: string, q: char)
    requires |r| == |s|
    requires forall i :: 0 <= i < |r| && r[i] == q ==> s[i] == q
    requires forall i :: 0 <= i < |pat| ==> pat[i] == q
    requires Contains(r, pat)
    ensures Contains(s, pat)
    decreases |r|
  {
    if pat <= r {
      assert pat <= s;
    } else {
      ContainsTransfer(r[1..], s[1..], pat, q);
    }
  }

  // ---------------------------------------------------------------------------
  // numbers in f-strings

  function DigitChar(d: nat): char
    requires d < 10
  {
    ('0' as int + d) as char
  }

  /** `str(n)` for a natural number. */
  function NatToString(n: nat): (r: string)
    ensures r != []
    ensures forall i :: 0 <= i < |r| ==> IsAsciiDigit(r[i])
  {
    if n < 10 then [DigitChar(n)] else NatToString(n / 10) + [DigitChar(n % 10)]
  }

  /** `str(n)` for any integer. */
  function IntToString(n: int): string
  {
    if n < 0 then "-" + NatToString(-n) else NatToString(n)
  }

  /** The number a string of decimal digits denotes (the reader of `NatToString`). */
  function DecimalValue(s: string): nat
    requires forall i :: 0 <= i < |s| ==> IsAsciiDigit(s[i])
  {
    if s == [] then 0 else 10 * DecimalValue(s[..|s| - 1]) + DigitValue(s[|s| - 1])
  }

  function DigitValue(c: char): nat
    requires IsAsciiDigit(c)
  {
    c as int - '0' as int
  }

  /** `NatToString` writes `n` in decimal: reading the digits back gives `n`. */
  lemma {:induction false} NatToStringValue(n: nat)
    ensures DecimalValue(NatToString(n)) == n
  {
    if n >= 10 {
      var s := NatToString(n);
      assert s[..|s| - 1] == NatToString(n / 10);
      NatToStringValue(n / 10);
    }
  }

  /** `c * n`. */
  function Repeat(c: char, n: nat): (r: string)
  {
    seq(n, _ => c)
  }

  function Min(a: int, b: int): int { if a <= b then a else b }
}
