/**
 * The `TextToCodeConverter` class: turns free text into one of four Python
 * snippets (print statements, a function, a class, a comment block).
 *
 * The class keeps one field, the template table set in `__init__` and never
 * changed, so the model has the table as `ConvertText`'s dispatch. The
 * current time each builder stamps into its snippet is a parameter
 * `timestamp`.
 */
module TextToCode {
  import opened Results
  import opened Text
  import opened Seqs

  // ---------------------------------------------------------------------------
  // _split_into_sentences

  predicate IsSentenceEnd(c: char) { c == '.' || c == '!' || c == '?' }

  /** A string that is neither empty nor starts or ends with whitespace. */
  predicate IsTrimmed(s: string)
  {
    s != [] && !IsSpace(s[0]) && !IsSpace(s[|s| - 1])
  }

  /** `[s.strip() for s in pieces if s.strip()]`. */
  function StrippedNonBlank(pieces: seq<string>): (r: seq<string>)
    ensures forall k :: 0 <= k < |r| ==> IsTrimmed(r[k])
    ensures |r| <= |pieces|
  {
    if pieces == [] then []
    else
      var s := Strip(pieces[0]);
      (if s != [] then [s] else []) + StrippedNonBlank(pieces[1..])
  }

  /** No character of `s` satisfies `p`. */
  predicate Avoids(s: string, p: char -> bool)
  {
    forall i :: 0 <= i < |s| ==> !p(s[i])
  }

  /** Stripping only removes characters, so it keeps a character class out. */
  lemma StripAvoids(s: string, p: char -> bool)
    requires Avoids(s, p)
    ensures Avoids(Strip(s), p)
  {
    var r := Strip(s);
    assert forall i :: 0 <= i < |r| ==> r[i] == s[LeadCount(s, IsSpace) + i];
  }

  lemma {:induction false} StrippedNonBlankAvoids(pieces: seq<string>, p: char -> bool)
    requires forall k :: 0 <= k < |pieces| ==> Avoids(pieces[k], p)
    ensures forall k :: 0 <= k < |StrippedNonBlank(pieces)| ==> Avoids(StrippedNonBlank(pieces)[k], p)
  {
    if pieces != [] {
      StripAvoids(pieces[0], p);
      StrippedNonBlankAvoids(pieces[1..], p);
    }
  }

  /** The comprehension distributes over concatenation of the piece lists. */
  lemma {:induction false} StrippedNonBlankAppend(a: seq<string>, b: seq<string>)
    ensures StrippedNonBlank(a + b) == StrippedNonBlank(a) + StrippedNonBlank(b)
  {
    if a != [] {
      var h := Strip(a[0]);
      assert (a + b)[0] == a[0] && (a + b)[1..] == a[1..] + b;
      StrippedNonBlankAppend(a[1..], b);
      AppendAssoc(if h != [] then [h] else [], StrippedNonBlank(a[1..]), StrippedNonBlank(b));
    } else {
      assert a + b == b;
    }
  }

  /**
   * `_split_into_sentences(text)`: the pieces between sentence marks, stripped,
   * blank ones dropped. `re.split(r'[.!?]+', text)` splits at runs of marks;
   * splitting at every mark yields the same pieces plus empty ones between
   * adjacent marks, which the blank filter drops.
   */
  function SplitIntoSentences(text: string): (r: seq<string>)
    ensures forall k :: 0 <= k < |r| ==> IsTrimmed(r[k])
    ensures forall k :: 0 <= k < |r| ==> Avoids(r[k], IsSentenceEnd)
  {
    var pieces := SplitBy(text, IsSentenceEnd);
    assert forall k :: 0 <= k < |pieces| ==> Avoids(pieces[k], IsSentenceEnd);
    StrippedNonBlankAvoids(pieces, IsSentenceEnd);
    StrippedNonBlank(pieces)
  }

  /** A text without sentence marks is one sentence, its stripped self, unless it is blank. */
  lemma SentenceWithoutMarks(text: string)
    requires forall i :: 0 <= i < |text| ==> !IsSentenceEnd(text[i])
    ensures SplitIntoSentences(text) == if IsBlank(text) then [] else [Strip(text)]
  {
    SplitWithoutSeparator(text, IsSentenceEnd);
  }

  /** A sentence mark separates: the sentences of `a + mark + b` are those of `a`, then those of `b`. */
  lemma SentencesAroundMark(a: string, mark: char, b: string)
    requires IsSentenceEnd(mark)
    ensures SplitIntoSentences(a + [mark] + b) == SplitIntoSentences(a) + SplitIntoSentences(b)
  {
    SplitAroundSeparator(a, mark, b, IsSentenceEnd);
    StrippedNonBlankAppend(SplitBy(a, IsSentenceEnd), SplitBy(b, IsSentenceEnd));
  }

  // ---------------------------------------------------------------------------
  // Escaping a sentence for a Python string literal

  /** `s.replace('"', '\\"')`. */
  function EscapeQuotes(s: string): (r: string)
    ensures r != [] ==> r[0] != '"'
    ensures forall i, j :: 0 <= i && j == i + 1 && j < |r| && r[j] == '"' ==> r[i] == '\\'
  {
    if s == [] then []
    else
      var head := if s[0] == '"' then ['\\', '"'] else [s[0]];
      var rest := EscapeQuotes(s[1..]);
      assert forall i :: |head| <= i < |head + rest| ==> (head + rest)[i] == rest[i - |head|];
      head + rest
  }

  /** Reads an escaped string back: each `\"` becomes `"`. */
  function UnescapeQuotes(s: string): string
  {
    if |s| >= 2 && s[0] == '\\' && s[1] == '"' then ['"'] + UnescapeQuotes(s[2..])
    else if s == [] then []
    else [s[0]] + UnescapeQuotes(s[1..])
  }

  /** Escaping loses nothing: unescaping gives the sentence back. */
  lemma {:induction false} EscapeRoundTrip(s: string)
    ensures UnescapeQuotes(EscapeQuotes(s)) == s
  {
    if s != [] {
      var e := EscapeQuotes(s);
      var rest := EscapeQuotes(s[1..]);
      EscapeRoundTrip(s[1..]);
      if s[0] == '"' {
        assert e == ['\\', '"'] + rest;
        assert e[2..] == rest;
      } else {
        assert e == [s[0]] + rest;
        assert e[1..] == rest;
        assert rest != [] ==> rest[0] != '"';
      }
      assert s == [s[0]] + s[1..];
    }
  }

  // ---------------------------------------------------------------------------
  // _create_identifier

  /** The characters `[a-zA-Z0-9_]` keeps. */
  predicate IsIdentChar(c: char) { IsAsciiAlnum(c) || c == '_' }

  /** The characters an identifier is made of: `[a-z0-9_]`. */
  predicate IsLowerIdentChar(c: char) { IsAsciiLower(c) || IsAsciiDigit(c) || c == '_' }

  predicate IsUnderscore(c: char) { c == '_' }

  /** No two underscores in a row. */
  predicate NoDoubleUnderscore(s: string)
  {
    forall i, j :: 0 <= i < |s| && 0 <= j < |s| && j == i + 1 ==> !(s[i] == '_' && s[j] == '_')
  }

  /** `re.sub(r'[^a-zA-Z0-9_]', '_', s)`. */
  function ReplaceNonIdent(s: string): (r: string)
    ensures |r| == |s|
  {
    seq(|s|, i requires 0 <= i < |s| => if IsIdentChar(s[i]) then s[i] else '_')
  }

  /** `re.sub(r'_+', '_', s)`: every run of underscores becomes one underscore. */
  function CollapseUnderscores(s: string): (r: string)
    ensures |r| <= |s|
    ensures r == [] <==> s == []
    ensures s != [] ==> r[0] == s[0] && r[|r| - 1] == s[|s| - 1]
    ensures forall i :: 0 <= i < |r| ==> r[i] in s
    ensures NoDoubleUnderscore(r)
  {
    if s == [] then []
    else if |s| >= 2 && s[0] == '_' && s[1] == '_' then
      var r := CollapseUnderscores(s[1..]);
      assert forall c :: c in s[1..] ==> c in s;
      r
    else
      var rest := CollapseUnderscores(s[1..]);
      assert forall c :: c in s[1..] ==> c in s;
      assert forall i :: 1 <= i < |[s[0]] + rest| ==> ([s[0]] + rest)[i] == rest[i - 1];
      [s[0]] + rest
  }

  /** Collapsing changes nothing when there is no double underscore. */
  lemma {:induction false} CollapseWithoutDoubles(s: string)
    requires NoDoubleUnderscore(s)
    ensures CollapseUnderscores(s) == s
  {
    if s != [] {
      CollapseWithoutDoubles(s[1..]);
      assert s == [s[0]] + s[1..];
    }
  }

  /** The identifier before the minimum-length fallback. */
  function IdentifierBeforeFallback(text: string): string
  {
    var a := ReplaceNonIdent(Lower(text));
    var b := if a != [] && IsAsciiDigit(a[0]) then "func_" + a else a;
    StripBy(CollapseUnderscores(b), IsUnderscore)
  }

  const FallbackIdentifier: string := "generated_item"

  /** An identifier as `_create_identifier` shapes it. */
  predicate IsShapedIdentifier(s: string)
  {
    && |s| >= 3
    && AllLowerIdent(s)
    && NoDoubleUnderscore(s)
    && s[0] != '_' && s[|s| - 1] != '_'
  }

  /** `_create_identifier(text)`. */
  function CreateIdentifier(text: string): (r: string)
    ensures IsShapedIdentifier(r)
    ensures |IdentifierBeforeFallback(text)| < 3 ==> r == FallbackIdentifier
    ensures |IdentifierBeforeFallback(text)| >= 3 ==> r == IdentifierBeforeFallback(text)
  {
    var d := IdentifierBeforeFallback(text);
    IdentifierShape(text);
    FallbackIsShaped();
    if |d| < 3 then FallbackIdentifier else d
  }

  /** Only characters of `[a-z0-9_]`. */
  predicate AllLowerIdent(s: string)
  {
    forall i :: 0 <= i < |s| ==> IsLowerIdentChar(s[i])
  }

  lemma FallbackIsShaped()
    ensures IsShapedIdentifier(FallbackIdentifier)
  {
  }

  /** Lower-casing then replacing leaves only `[a-z0-9_]`. */
  lemma ReplacedIsLowerIdent(text: string)
    ensures AllLowerIdent(ReplaceNonIdent(Lower(text)))
  {
    var l := Lower(text);
    assert forall i :: 0 <= i < |l| ==> !IsAsciiUpper(l[i]);
  }

  /** Stripping underscores keeps the characters and the absence of double underscores. */
  lemma StripUnderscoresShape(c: string)
    requires AllLowerIdent(c) && NoDoubleUnderscore(c)
    ensures var d := StripBy(c, IsUnderscore);
      AllLowerIdent(d) && NoDoubleUnderscore(d) && (d != [] ==> d[0] != '_' && d[|d| - 1] != '_')
  {
    var d := StripBy(c, IsUnderscore);
    var lead := LeadCount(c, IsUnderscore);
    forall i, j | 0 <= i && j == i + 1 && j < |d|
      ensures !(d[i] == '_' && d[j] == '_')
    {
      assert d[i] == c[lead + i] && d[j] == c[lead + j];
    }
    forall i | 0 <= i < |d|
      ensures IsLowerIdentChar(d[i])
    {
      assert d[i] == c[lead + i];
    }
  }

  /** Every step keeps only `[a-z0-9_]`, and the last two remove double and edge underscores. */
  lemma IdentifierShape(text: string)
    ensures var d := IdentifierBeforeFallback(text);
      && AllLowerIdent(d)
      && NoDoubleUnderscore(d)
      && (d != [] ==> d[0] != '_' && d[|d| - 1] != '_')
  {
    var a := ReplaceNonIdent(Lower(text));
    ReplacedIsLowerIdent(text);
    var b := if a != [] && IsAsciiDigit(a[0]) then "func_" + a else a;
    assert AllLowerIdent(b) by {
      if a != [] && IsAsciiDigit(a[0]) {
        assert forall i :: 5 <= i < |b| ==> b[i] == a[i - 5];
      }
    }
    var c := CollapseUnderscores(b);
    assert AllLowerIdent(c) by {
      forall i | 0 <= i < |c|
        ensures IsLowerIdentChar(c[i])
      {
        var x := c[i];
        assert x in b;
      }
    }
    StripUnderscoresShape(c);
  }

  /** An identifier that is already shaped and does not start with a digit comes back unchanged. */
  lemma IdentifierOfShaped(s: string)
    requires IsShapedIdentifier(s) && !IsAsciiDigit(s[0])
    ensures CreateIdentifier(s) == s
  {
    LowerIdentKept(s);
    CollapseWithoutDoubles(s);
    StripEdgeless(s);
    assert IdentifierBeforeFallback(s) == s;
  }

  /** Lower-casing and replacing leave a string of `[a-z0-9_]` unchanged. */
  lemma LowerIdentKept(s: string)
    requires AllLowerIdent(s)
    ensures ReplaceNonIdent(Lower(s)) == s
  {
    assert Lower(s) == s by {
      forall i | 0 <= i < |s|
        ensures Lower(s)[i] == s[i]
      {
        assert IsLowerIdentChar(s[i]);
      }
    }
    forall i | 0 <= i < |s|
      ensures ReplaceNonIdent(s)[i] == s[i]
    {
      assert IsLowerIdentChar(s[i]);
    }
  }

  /** Stripping underscores leaves a string that neither starts nor ends with one. */
  lemma StripEdgeless(s: string)
    requires s != [] && s[0] != '_' && s[|s| - 1] != '_'
    ensures StripBy(s, IsUnderscore) == s
  {
    assert LeadCount(s, IsUnderscore) == 0;
    assert TrailCount(s, IsUnderscore) == 0;
  }

  /**
   * `_create_identifier` is idempotent on every result that does not start
   * with a digit (see `IdentifierMayStartWithDigit` for one that does).
   */
  lemma IdentifierIdempotent(text: string)
    requires !IsAsciiDigit(CreateIdentifier(text)[0])
    ensures CreateIdentifier(CreateIdentifier(text)) == CreateIdentifier(text)
  {
    IdentifierOfShaped(CreateIdentifier(text));
  }

  /**
   * The `func_` prefix is decided before leading underscores are stripped,
   * so a result can start with a digit: `"!123"` gives `"123"`.
   */
  lemma IdentifierMayStartWithDigit(text: string)
    requires text == "!123"
    ensures CreateIdentifier(text) == "123"
  {
    IdentifierOfBangDigits(text);
  }

  lemma IdentifierOfBangDigits(text: string)
    requires text == "!123"
    ensures IdentifierBeforeFallback(text) == "123"
  {
    var a := ReplaceNonIdent(Lower(text));
    ReplacedBangDigits(text);
    assert !IsAsciiDigit(a[0]);
    CollapseWithoutDoubles(a);
    StrippedUnderscoreDigits(a);
  }

  lemma ReplacedBangDigits(text: string)
    requires text == "!123"
    ensures ReplaceNonIdent(Lower(text)) == "_123"
  {
    var l := Lower(text);
    assert l[0] == '!' && l[1] == '1' && l[2] == '2' && l[3] == '3';
    assert l == "!123";
    var a := ReplaceNonIdent(l);
    assert a[0] == '_' && a[1] == '1' && a[2] == '2' && a[3] == '3';
  }

  lemma StrippedUnderscoreDigits(a: string)
    requires a == "_123"
    ensures StripBy(a, IsUnderscore) == "123"
  {
    assert LeadCount(a, IsUnderscore) == 1;
    var t := a[1..];
    assert t == "123";
    assert TrailCount(t, IsUnderscore) == 0;
    assert StripBy(a, IsUnderscore) == t[..3];
  }

  /** `f"method_{i}"`, the name of the `i`-th generated method. */
  function MethodName(i: nat): string
  {
    "method_" + NatToString(i)
  }

  /** `_create_identifier` keeps every method name as it is. */
  lemma MethodNameKept(i: nat)
    ensures CreateIdentifier(MethodName(i)) == MethodName(i)
  {
    var r := MethodName(i);
    assert forall k :: 7 <= k < |r| ==> IsAsciiDigit(r[k]);
    assert forall k :: 0 <= k < 7 ==> r[k] == "method_"[k];
    IdentifierOfShaped(r);
  }

  // ---------------------------------------------------------------------------
  // _create_class_name

  /** `re.findall(r'[a-zA-Z0-9]+', s)`: the maximal runs of ASCII letters and digits. */
  function AlnumRuns(s: string): (r: seq<string>)
    ensures forall k :: 0 <= k < |r| ==> r[k] != []
    ensures forall k, i :: 0 <= k < |r| && 0 <= i < |r[k]| ==> IsAsciiAlnum(r[k][i])
    decreases |s|
  {
    if s == [] then []
    else if !IsAsciiAlnum(s[0]) then AlnumRuns(s[1..])
    else
      var n := LeadCount(s, IsAsciiAlnum);
      [s[..n]] + AlnumRuns(s[n..])
  }

  /** `''.join(words)`. */
  function Concat(words: seq<string>): string
  {
    if words == [] then [] else words[0] + Concat(words[1..])
  }

  /** The letters and digits of `s`, in order. */
  function AlnumChars(s: string): string
  {
    if s == [] then []
    else (if IsAsciiAlnum(s[0]) then [s[0]] else []) + AlnumChars(s[1..])
  }

  /** The runs lose no letter or digit and add none: together they are the text's letters and digits. */
  lemma {:induction false} AlnumRunsCover(s: string)
    ensures Concat(AlnumRuns(s)) == AlnumChars(s)
    decreases |s|
  {
    if s != [] {
      if !IsAsciiAlnum(s[0]) {
        AlnumRunsCover(s[1..]);
      } else {
        var n := LeadCount(s, IsAsciiAlnum);
        AlnumRunsCover(s[n..]);
        AlnumCharsOfRun(s, n);
        assert s[n..] == s[n..];
      }
    }
  }

  /** The letters and digits of `s` are its leading run followed by those of the rest. */
  lemma {:induction false} AlnumCharsOfRun(s: string, n: nat)
    requires n <= |s| && forall i :: 0 <= i < n ==> IsAsciiAlnum(s[i])
    ensures AlnumChars(s) == s[..n] + AlnumChars(s[n..])
  {
    if n > 0 {
      AlnumCharsOfRun(s[1..], n - 1);
      assert s[1..][n - 1..] == s[n..];
      assert s[..n] == [s[0]] + s[1..][..n - 1];
    }
  }

  /** `word.capitalize()`: the first character upper-cased, the rest lower-cased. */
  function Capitalize(w: string): (r: string)
    ensures |r| == |w|
    ensures Lower(r) == Lower(w)
  {
    if w == [] then [] else [ToUpperChar(w[0])] + Lower(w[1..])
  }

  /** `[w.capitalize() for w in words]`. */
  function CapitalizeAll(words: seq<string>): (r: seq<string>)
    ensures |r| == |words|
    ensures forall k :: 0 <= k < |r| ==> r[k] == Capitalize(words[k])
  {
    if words == [] then [] else [Capitalize(words[0])] + CapitalizeAll(words[1..])
  }

  const FallbackClassName: string := "GeneratedClass"

  /** `_create_class_name(text)`. */
  function CreateClassName(text: string): (r: string)
    ensures AlnumRuns(text) == [] ==> r == FallbackClassName
    ensures AlnumRuns(text) != [] ==>
      var runs := AlnumRuns(text)[..Min(3, |AlnumRuns(text)|)];
      && r != []
      && IsAsciiUpper(r[0])
      && (forall i :: 0 <= i < |r| ==> IsAsciiAlnum(r[i]))
      && Lower(r) == (if IsAsciiLetter(runs[0][0]) then "" else "generated") + Lower(Concat(runs))
  {
    var words := AlnumRuns(text);
    if words == [] then FallbackClassName
    else
      var runs := words[..Min(3, |words|)];
      var name := Concat(CapitalizeAll(runs));
      ClassNameShape(runs);
      if name == [] || !IsAsciiLetter(name[0]) then "Generated" + name else name
  }

  /** The PascalCase join of non-empty alphanumeric runs. */
  lemma ClassNameShape(runs: seq<string>)
    requires runs != []
    requires forall k :: 0 <= k < |runs| ==> runs[k] != []
    requires forall k, i :: 0 <= k < |runs| && 0 <= i < |runs[k]| ==> IsAsciiAlnum(runs[k][i])
    ensures var name := Concat(CapitalizeAll(runs));
      && name != []
      && name[0] == ToUpperChar(runs[0][0])
      && (forall i :: 0 <= i < |name| ==> IsAsciiAlnum(name[i]))
      && Lower(name) == Lower(Concat(runs))
      && Lower("Generated" + name) == "generated" + Lower(Concat(runs))
  {
    var caps := CapitalizeAll(runs);
    CapitalizedAlnum(runs);
    LowerConcatCapitalized(runs);
    assert caps[0] == Capitalize(runs[0]);
    assert Concat(caps) == caps[0] + Concat(caps[1..]);
    LowerAppend("Generated", Concat(caps));
    LowerGenerated();
  }

  lemma LowerGenerated()
    ensures Lower("Generated") == "generated"
  {
  }

  lemma {:induction false} CapitalizedAlnum(runs: seq<string>)
    requires forall k, i :: 0 <= k < |runs| && 0 <= i < |runs[k]| ==> IsAsciiAlnum(runs[k][i])
    ensures forall i :: 0 <= i < |Concat(CapitalizeAll(runs))| ==> IsAsciiAlnum(Concat(CapitalizeAll(runs))[i])
  {
    if runs != [] {
      CapitalizedAlnum(runs[1..]);
      var c := Capitalize(runs[0]);
      assert forall i :: 0 <= i < |c| ==> IsAsciiAlnum(c[i]);
      assert CapitalizeAll(runs)[1..] == CapitalizeAll(runs[1..]);
    }
  }

  lemma {:induction false} LowerConcatCapitalized(runs: seq<string>)
    ensures Lower(Concat(CapitalizeAll(runs))) == Lower(Concat(runs))
  {
    if runs != [] {
      LowerConcatCapitalized(runs[1..]);
      assert CapitalizeAll(runs)[1..] == CapitalizeAll(runs[1..]);
      LowerAppend(Capitalize(runs[0]), Concat(CapitalizeAll(runs[1..])));
      LowerAppend(runs[0], Concat(runs[1..]));
    }
  }

  lemma LowerAppend(a: string, b: string)
    ensures Lower(a + b) == Lower(a) + Lower(b)
  {
  }

  // ---------------------------------------------------------------------------
  // Shared pieces of the templates

  /** The line stamping the creation time (`datetime.now()` rendered by the caller). */
  function CreatedOn(timestamp: string): string
  {
    "# Created on: " + timestamp
  }

  /** `f'{text[:n]}{"..." if len(text) > n else ""}'`: a preview of at most `n` characters. */
  function Ellipsized(text: string, n: nat): (r: string)
    ensures |r| <= n + 3
    ensures text[..Min(n, |text|)] <= r
  {
    if |text| > n then text[..n] + "..." else text
  }

  /** `text.split()[:n]`. */
  function FirstWords(text: string, n: nat): (r: seq<string>)
    ensures |r| <= n
  {
    var words := SplitWhitespace(text);
    words[..Min(n, |words|)]
  }

  /** A sentence is trimmed, so the builders' `if sentence.strip()` always holds and `strip()` changes nothing. */
  lemma TrimmedIsItsStrip(s: string)
    requires IsTrimmed(s)
    ensures !IsBlank(s) && Strip(s) == s
  {
  }

  /** Indexing into the middle part of a three-part concatenation. */
  lemma ConcatIndex<T>(a: seq<T>, b: seq<T>, c: seq<T>, k: nat)
    requires k < |b|
    ensures (a + b + c)[|a| + k] == b[k]
  {
  }

  // ---------------------------------------------------------------------------
  // _create_print_statements

  /** `f'print("Statement {i}: {clean_sentence}")'`. */
  function StatementCall(i: nat, cleanSentence: string): string
  {
    "print(\"Statement " + NatToString(i) + ": " + cleanSentence + "\")"
  }

  /** The print statements for `sentences`, numbered from 1. */
  function StatementLines(sentences: seq<string>): (r: seq<string>)
    ensures |r| == |sentences|
  {
    seq(|sentences|, k requires 0 <= k < |sentences| => StatementCall(k + 1, EscapeQuotes(sentences[k])))
  }

  lemma StatementLinesSnoc(sentences: seq<string>, i: nat)
    requires i < |sentences|
    ensures StatementLines(sentences[..i + 1]) ==
      StatementLines(sentences[..i]) + [StatementCall(i + 1, EscapeQuotes(sentences[i]))]
  {
  }

  function PrintStatementsHeader(timestamp: string): seq<string>
  {
    ["# Generated Print Statements", CreatedOn(timestamp), ""]
  }

  const PrintStatementsFooter: seq<string> := ["", "# End of generated print statements"]

  /** The list `_create_print_statements` joins, given the sentences. */
  function PrintStatementsLayout(sentences: seq<string>, timestamp: string): seq<string>
  {
    PrintStatementsHeader(timestamp) + StatementLines(sentences) + PrintStatementsFooter
  }

  function PrintStatementLines(text: string, timestamp: string): seq<string>
  {
    PrintStatementsLayout(SplitIntoSentences(text), timestamp)
  }

  /** `_create_print_statements(text)`. */
  method CreatePrintStatements(text: string, timestamp: string) returns (code: string)
    ensures code == Join(PrintStatementLines(text, timestamp), "\n")
  {
    var sentences := SplitIntoSentences(text);
    var codeLines := PrintStatementsHeader(timestamp);
    for i := 0 to |sentences|
      invariant codeLines == PrintStatementsHeader(timestamp) + StatementLines(sentences[..i])
    {
      var sentence := sentences[i];
      TrimmedIsItsStrip(sentence);
      if !IsBlank(sentence) {
        var cleanSentence := EscapeQuotes(Strip(sentence));
        codeLines := codeLines + [StatementCall(i + 1, cleanSentence)];
      }
      StatementLinesSnoc(sentences, i);
      AppendAssoc(PrintStatementsHeader(timestamp), StatementLines(sentences[..i]), [StatementCall(i + 1, EscapeQuotes(sentences[i]))]);
    }
    assert sentences[..|sentences|] == sentences;
    codeLines := codeLines + PrintStatementsFooter;
    code := Join(codeLines, "\n");
  }

  /**
   * One print line per sentence, in order, numbered from 1, each carrying its
   * sentence through `EscapeQuotes` (which puts a backslash before every `"`
   * and which `UnescapeQuotes` undoes), between a fixed header and footer.
   */
  lemma PrintStatementsPerSentence(sentences: seq<string>, timestamp: string)
    ensures var lines := PrintStatementsLayout(sentences, timestamp);
      && |lines| == |sentences| + 5
      && lines[..3] == PrintStatementsHeader(timestamp)
      && lines[|sentences| + 3..] == PrintStatementsFooter
      && forall k :: 0 <= k < |sentences| ==>
        lines[k + 3] == "print(\"Statement " + NatToString(k + 1) + ": " + EscapeQuotes(sentences[k]) + "\")"
  {
    var body := StatementLines(sentences);
    var lines := PrintStatementsLayout(sentences, timestamp);
    forall k | 0 <= k < |sentences|
      ensures lines[k + 3] == StatementCall(k + 1, EscapeQuotes(sentences[k]))
    {
      ConcatIndex(PrintStatementsHeader(timestamp), body, PrintStatementsFooter, k);
    }
  }

  /** A text without sentence marks becomes exactly one print statement, of the stripped text. */
  lemma PrintStatementsSingleSentence(text: string, timestamp: string)
    requires !IsBlank(text)
    requires forall i :: 0 <= i < |text| ==> !IsSentenceEnd(text[i])
    ensures PrintStatementLines(text, timestamp) ==
      PrintStatementsHeader(timestamp) + [StatementCall(1, EscapeQuotes(Strip(text)))] + PrintStatementsFooter
  {
    SentenceWithoutMarks(text);
    assert StatementLines([Strip(text)]) == [StatementCall(1, EscapeQuotes(Strip(text)))];
  }

  // ---------------------------------------------------------------------------
  // _create_function_definition

  /** `_create_identifier("_".join(text.split()[:3]))`. */
  function FunctionName(text: string): string
  {
    CreateIdentifier(Join(FirstWords(text, 3), "_"))
  }

  /** `f'    print("{clean_sentence}")'`. */
  function PrintCall(cleanSentence: string): string
  {
    "    print(\"" + cleanSentence + "\")"
  }

  /** The function body for `sentences`. */
  function BodyLines(sentences: seq<string>): (r: seq<string>)
    ensures |r| == |sentences|
  {
    seq(|sentences|, k requires 0 <= k < |sentences| => PrintCall(EscapeQuotes(sentences[k])))
  }

  lemma BodyLinesSnoc(sentences: seq<string>, i: nat)
    requires i < |sentences|
    ensures BodyLines(sentences[..i + 1]) == BodyLines(sentences[..i]) + [PrintCall(EscapeQuotes(sentences[i]))]
  {
  }

  function FunctionDefinitionHeader(name: string, preview: string, timestamp: string): seq<string>
  {
    [ "# Generated Function Definition", CreatedOn(timestamp), ""
    , "def " + name + "():"
    , "    \"\"\""
    , "    Function generated from user input:"
    , "    \"" + preview + "\""
    , "    \"\"\""
    ]
  }

  function FunctionDefinitionFooter(name: string): seq<string>
  {
    ["", "", "# Example usage:", "if __name__ == '__main__':", "    " + name + "()"]
  }

  /** The list `_create_function_definition` joins, given the name, the preview and the sentences. */
  function FunctionDefinitionLayout(name: string, preview: string, sentences: seq<string>, timestamp: string): seq<string>
  {
    FunctionDefinitionHeader(name, preview, timestamp) + BodyLines(sentences) + FunctionDefinitionFooter(name)
  }

  function FunctionDefinitionLines(text: string, timestamp: string): seq<string>
  {
    FunctionDefinitionLayout(FunctionName(text), Ellipsized(text, 60), SplitIntoSentences(text), timestamp)
  }

  /** The loop of `_create_function_definition` that adds one `print` line per sentence. */
  method AppendFunctionBody(codeLines: seq<string>, sentences: seq<string>) returns (r: seq<string>)
    requires forall k :: 0 <= k < |sentences| ==> IsTrimmed(sentences[k])
    ensures r == codeLines + BodyLines(sentences)
  {
    r := codeLines;
    for i := 0 to |sentences|
      invariant r == codeLines + BodyLines(sentences[..i])
    {
      var sentence := sentences[i];
      TrimmedIsItsStrip(sentence);
      if !IsBlank(sentence) {
        var cleanSentence := EscapeQuotes(Strip(sentence));
        r := r + [PrintCall(cleanSentence)];
      }
      BodyLinesSnoc(sentences, i);
      AppendAssoc(codeLines, BodyLines(sentences[..i]), [PrintCall(EscapeQuotes(sentences[i]))]);
    }
    assert sentences[..|sentences|] == sentences;
  }

  /** `_create_function_definition(text)`. */
  method CreateFunctionDefinition(text: string, timestamp: string) returns (code: string)
    ensures code == Join(FunctionDefinitionLines(text, timestamp), "\n")
  {
    var words := FirstWords(text, 3);
    var functionName := CreateIdentifier(Join(words, "_"));
    var sentences := SplitIntoSentences(text);
    var codeLines := FunctionDefinitionHeader(functionName, Ellipsized(text, 60), timestamp);
    codeLines := AppendFunctionBody(codeLines, sentences);
    codeLines := codeLines + FunctionDefinitionFooter(functionName);
    code := Join(codeLines, "\n");
  }

  /**
   * The function is defined under `name` and called under it in the example,
   * the docstring quotes the preview, and the body has one `print` line per
   * sentence, in order, and nothing else.
   */
  lemma FunctionDefinitionShape(name: string, preview: string, sentences: seq<string>, timestamp: string)
    ensures var lines := FunctionDefinitionLayout(name, preview, sentences, timestamp);
      && |lines| == |sentences| + 13
      && lines[3] == "def " + name + "():"
      && lines[6] == "    \"" + preview + "\""
      && lines[|lines| - 1] == "    " + name + "()"
      && forall k :: 0 <= k < |sentences| ==> lines[k + 8] == "    print(\"" + EscapeQuotes(sentences[k]) + "\")"
  {
    var lines := FunctionDefinitionLayout(name, preview, sentences, timestamp);
    forall k | 0 <= k < |sentences|
      ensures lines[k + 8] == PrintCall(EscapeQuotes(sentences[k]))
    {
      ConcatIndex(FunctionDefinitionHeader(name, preview, timestamp), BodyLines(sentences), FunctionDefinitionFooter(name), k);
    }
  }

  /**
   * The function name is `_create_identifier` of the first three words joined
   * by `_`, hence a shaped identifier.
   */
  lemma FunctionDefinitionName(text: string, timestamp: string)
    ensures var name := CreateIdentifier(Join(FirstWords(text, 3), "_"));
      && IsShapedIdentifier(name)
      && FunctionDefinitionLines(text, timestamp)[3] == "def " + name + "():"
  {
    FunctionDefinitionShape(FunctionName(text), Ellipsized(text, 60), SplitIntoSentences(text), timestamp);
  }

  /** The docstring quotes a text of at most 60 characters whole and cuts a longer one to 60 plus `...`. */
  lemma FunctionDefinitionPreview(text: string, timestamp: string)
    ensures |text| <= 60 ==> FunctionDefinitionLines(text, timestamp)[6] == "    \"" + text + "\""
    ensures |text| > 60 ==> FunctionDefinitionLines(text, timestamp)[6] == "    \"" + text[..60] + "...\""
  {
    var preview := Ellipsized(text, 60);
    FunctionDefinitionShape(FunctionName(text), preview, SplitIntoSentences(text), timestamp);
    if |text| > 60 {
      QuotedEllipsis(text[..60]);
    }
  }

  lemma QuotedEllipsis(s: string)
    ensures "    \"" + (s + "...") + "\"" == "    \"" + s + "...\""
  {
  }

  // ---------------------------------------------------------------------------
  // _create_class_definition

  /** `_create_class_name("_".join(text.split()[:2]))`. */
  function ClassName(text: string): string
  {
    CreateClassName(Join(FirstWords(text, 2), "_"))
  }

  function ClassDefinitionHeader(className: string, preview: string, description: string, timestamp: string): seq<string>
  {
    [ "# Generated Class Definition", CreatedOn(timestamp), ""
    , "class " + className + ":"
    , "    \"\"\""
    , "    Class generated from user input:"
    , "    \"" + preview + "\""
    , "    \"\"\""
    , ""
    , "    def __init__(self):"
    , "        \"\"\"Initialize the class instance.\"\"\""
    , "        self.description = \"" + description + "\""
    , ""
    , "    def display_info(self):"
    , "        \"\"\"Display information " + "about this instance.\"\"\""
    , "        print(f\"Description: " + "{self.description}\")"
    ]
  }

  /** The five entries of generated method number `i`, named `name`, echoing `cleanSentence`. */
  function MethodBlock(name: string, i: nat, cleanSentence: string): seq<string>
  {
    [ ""
    , "    def " + name + "(self):"
    , "        \"\"\"Method " + NatToString(i) + " generated from user input.\"\"\""
    , "        print(\"" + cleanSentence + "\")"
    , "        return \"" + cleanSentence + "\""
    ]
  }

  /** The method blocks for `sentences`, numbered from 1. */
  function MethodBlocks(sentences: seq<string>): (r: seq<string>)
    ensures |r| == 5 * |sentences|
  {
    if sentences == [] then []
    else
      var n := |sentences|;
      MethodBlocks(sentences[..n - 1]) + MethodBlock(MethodName(n), n, EscapeQuotes(sentences[n - 1]))
  }

  function ClassDefinitionFooter(className: string, hasSentences: bool): seq<string>
  {
    [ "", "", "# Example usage:", "if __name__ == '__main__':"
    , "    obj = " + className + "()"
    , "    obj.display_info()"
    , if hasSentences then "    obj.method_1()" else ""
    ]
  }

  /** The list `_create_class_definition` builds before `filter(None, …)`; methods for the first three sentences only. */
  function ClassDefinitionLayout(className: string, preview: string, description: string,
                                 sentences: seq<string>, timestamp: string): seq<string>
  {
    ClassDefinitionHeader(className, preview, description, timestamp)
      + MethodBlocks(sentences[..Min(3, |sentences|)])
      + ClassDefinitionFooter(className, |sentences| > 0)
  }

  function ClassDefinitionLines(text: string, timestamp: string): seq<string>
  {
    ClassDefinitionLayout(ClassName(text), Ellipsized(text, 60), Ellipsized(text, 50), SplitIntoSentences(text), timestamp)
  }

  /** One pass of the method loop of `_create_class_definition`: the method for sentence number `i`. */
  method AppendMethod(codeLines: seq<string>, i: nat, sentence: string) returns (r: seq<string>)
    requires IsTrimmed(sentence)
    ensures r == codeLines + MethodBlock(MethodName(i), i, EscapeQuotes(sentence))
  {
    r := codeLines;
    TrimmedIsItsStrip(sentence);
    if !IsBlank(sentence) {
      var methodName := CreateIdentifier("method_" + NatToString(i));
      MethodNameKept(i);
      var cleanSentence := EscapeQuotes(Strip(sentence));
      r := r + MethodBlock(methodName, i, cleanSentence);
    }
  }

  /** The loop of `_create_class_definition` that adds one method per sentence. */
  method AppendMethods(codeLines: seq<string>, sentences: seq<string>) returns (r: seq<string>)
    requires forall k :: 0 <= k < |sentences| ==> IsTrimmed(sentences[k])
    ensures r == codeLines + MethodBlocks(sentences)
  {
    r := codeLines;
    for i := 0 to |sentences|
      invariant r == codeLines + MethodBlocks(sentences[..i])
    {
      r := AppendMethod(r, i + 1, sentences[i]);
      assert sentences[..i + 1][..i] == sentences[..i];
      AppendAssoc(codeLines, MethodBlocks(sentences[..i]), MethodBlock(MethodName(i + 1), i + 1, EscapeQuotes(sentences[i])));
    }
    assert sentences[..|sentences|] == sentences;
  }

  /** `_create_class_definition(text)`: the non-empty entries joined. */
  method CreateClassDefinition(text: string, timestamp: string) returns (code: string)
    ensures code == Join(DropEmpty(ClassDefinitionLines(text, timestamp)), "\n")
  {
    var words := FirstWords(text, 2);
    var className := CreateClassName(Join(words, "_"));
    var sentences := SplitIntoSentences(text);
    var codeLines := ClassDefinitionHeader(className, Ellipsized(text, 60), Ellipsized(text, 50), timestamp);
    codeLines := AppendMethods(codeLines, sentences[..Min(3, |sentences|)]);
    codeLines := codeLines + ClassDefinitionFooter(className, |sentences| > 0);
    code := Join(DropEmpty(codeLines), "\n");
  }

  /** Method block `k` (from 0) starts at entry `5 * k` of `MethodBlocks`. */
  lemma {:induction false} MethodBlocksAt(sentences: seq<string>, k: nat)
    requires k < |sentences|
    ensures MethodBlocks(sentences)[5 * k + 1] == "    def " + MethodName(k + 1) + "(self):"
  {
    var n := |sentences|;
    var init := MethodBlocks(sentences[..n - 1]);
    var last := MethodBlock(MethodName(n), n, EscapeQuotes(sentences[n - 1]));
    assert MethodBlocks(sentences) == init + last;
    if k < n - 1 {
      MethodBlocksAt(sentences[..n - 1], k);
      assert (init + last)[5 * k + 1] == init[5 * k + 1];
    } else {
      assert (init + last)[5 * k + 1] == last[1];
    }
  }

  /**
   * The class gets one method per sentence up to three, named `method_1`,
   * `method_2`, `method_3` in order, and the example calls `method_1` exactly
   * when there is a sentence.
   */
  lemma ClassDefinitionMethods(className: string, preview: string, description: string,
                               sentences: seq<string>, timestamp: string)
    ensures var lines := ClassDefinitionLayout(className, preview, description, sentences, timestamp);
      var m := Min(3, |sentences|);
      && |lines| == 16 + 5 * m + 7
      && lines[3] == "class " + className + ":"
      && (forall k :: 0 <= k < m ==> lines[16 + 5 * k + 1] == "    def method_" + NatToString(k + 1) + "(self):")
      && lines[|lines| - 2] == "    obj.display_info()"
      && lines[|lines| - 1] == (if sentences != [] then "    obj.method_1()" else "")
  {
    var m := Min(3, |sentences|);
    var header := ClassDefinitionHeader(className, preview, description, timestamp);
    var blocks := MethodBlocks(sentences[..m]);
    var footer := ClassDefinitionFooter(className, |sentences| > 0);
    ClassDefinitionHeaderShape(className, preview, description, timestamp);
    MethodLinesAfter(header, sentences[..m], footer);
    var lines := header + blocks + footer;
    assert lines[|lines| - 2] == footer[5] && lines[|lines| - 1] == footer[6];
  }

  lemma ClassDefinitionHeaderShape(className: string, preview: string, description: string, timestamp: string)
    ensures var header := ClassDefinitionHeader(className, preview, description, timestamp);
      |header| == 16 && header[3] == "class " + className + ":"
  {
  }

  lemma MethodDeclLine(i: nat)
    ensures "    def " + MethodName(i) + "(self):" == "    def method_" + NatToString(i) + "(self):"
  {
  }

  /** Behind a 16-line header, method `k + 1` is declared on line `16 + 5k + 1`. */
  lemma MethodLinesAfter(header: seq<string>, sentences: seq<string>, footer: seq<string>)
    requires |header| == 16
    ensures forall k :: 0 <= k < |sentences| ==>
      (header + MethodBlocks(sentences) + footer)[16 + 5 * k + 1] == "    def method_" + NatToString(k + 1) + "(self):"
  {
    forall k | 0 <= k < |sentences| {
      MethodLineAt(header, sentences, footer, k);
    }
  }

  lemma MethodLineAt(header: seq<string>, sentences: seq<string>, footer: seq<string>, k: nat)
    requires |header| == 16 && k < |sentences|
    ensures (header + MethodBlocks(sentences) + footer)[16 + 5 * k + 1] == "    def method_" + NatToString(k + 1) + "(self):"
  {
    MethodBlocksAt(sentences, k);
    ConcatIndex(header, MethodBlocks(sentences), footer, 5 * k + 1);
    MethodDeclLine(k + 1);
  }

  /** `filter(None, …)` of a list with one more entry. */
  lemma {:induction false} DropEmptySnoc(parts: seq<string>, x: string)
    ensures DropEmpty(parts + [x]) == DropEmpty(parts) + (if x == [] then [] else [x])
  {
    if parts != [] {
      assert (parts + [x])[1..] == parts[1..] + [x];
      DropEmptySnoc(parts[1..], x);
    } else {
      assert parts + [x] == [x];
    }
  }

  /**
   * After `filter(None, …)` drops every empty entry, the class code ends with
   * the call of `method_1` when there is a sentence and with the call of
   * `display_info` otherwise.
   */
  lemma ClassDefinitionEnding(className: string, preview: string, description: string,
                              sentences: seq<string>, timestamp: string)
    ensures var kept := DropEmpty(ClassDefinitionLayout(className, preview, description, sentences, timestamp));
      && kept != []
      && kept[|kept| - 1] == (if sentences != [] then "    obj.method_1()" else "    obj.display_info()")
  {
    var lines := ClassDefinitionLayout(className, preview, description, sentences, timestamp);
    var n := |lines|;
    ClassDefinitionMethods(className, preview, description, sentences, timestamp);
    assert lines == lines[..n - 2] + [lines[n - 2]] + [lines[n - 1]];
    DropEmptySnoc(lines[..n - 2], lines[n - 2]);
    DropEmptySnoc(lines[..n - 2] + [lines[n - 2]], lines[n - 1]);
  }

  /** The class is named by `_create_class_name` from the first two words and has a method per sentence, up to three. */
  lemma ClassDefinitionOfText(text: string, timestamp: string)
    ensures var lines := ClassDefinitionLines(text, timestamp);
      var name := CreateClassName(Join(FirstWords(text, 2), "_"));
      var m := Min(3, |SplitIntoSentences(text)|);
      && name != [] && IsAsciiUpper(name[0])
      && lines[3] == "class " + name + ":"
      && |lines| == 16 + 5 * m + 7
      && (forall k :: 0 <= k < m ==> lines[16 + 5 * k + 1] == "    def method_" + NatToString(k + 1) + "(self):")
  {
    ClassDefinitionMethods(ClassName(text), Ellipsized(text, 60), Ellipsized(text, 50), SplitIntoSentences(text), timestamp);
  }

  // ---------------------------------------------------------------------------
  // _create_comment_block

  const MaxWidth: nat := 70

  /**
   * The greedy wrap of `_create_comment_block`, from the partly filled line
   * `current`: a word joins the line when the line, a space and the word fit
   * in `MaxWidth`; otherwise the line is emitted (unless empty) and the word
   * starts the next one.
   */
  function WrapFrom(words: seq<string>, current: string): seq<string>
    decreases |words|
  {
    if words == [] then (if current != [] then [current] else [])
    else
      var word := words[0];
      if |current + " " + word| <= MaxWidth then
        WrapFrom(words[1..], if current != [] then current + " " + word else word)
      else
        (if current != [] then [current] else []) + WrapFrom(words[1..], word)
  }

  /** The wrapped lines of one source line's words. */
  function Wrap(words: seq<string>): seq<string>
  {
    WrapFrom(words, "")
  }

  /** A wrapped line is not empty, and it fits in `MaxWidth` unless it is a single word (or the line it started from). */
  lemma {:induction false} WrapFromFits(words: seq<string>, current: string)
    requires forall k :: 0 <= k < |words| ==> words[k] != []
    ensures forall k :: 0 <= k < |WrapFrom(words, current)| ==>
      WrapFrom(words, current)[k] != [] &&
      (|WrapFrom(words, current)[k]| <= MaxWidth || WrapFrom(words, current)[k] in words || WrapFrom(words, current)[k] == current)
    decreases |words|
  {
    if words != [] {
      var word := words[0];
      var rest := words[1..];
      assert forall w :: w in rest ==> w in words;
      if |current + " " + word| <= MaxWidth {
        var next := if current != [] then current + " " + word else word;
        WrapFromFits(rest, next);
      } else {
        WrapFromFits(rest, word);
        var head := if current != [] then [current] else [];
        var tail := WrapFrom(rest, word);
        assert forall k :: |head| <= k < |head + tail| ==> (head + tail)[k] == tail[k - |head|];
      }
    }
  }

  /** Every wrapped line is a non-empty line of at most 70 characters, or a single word. */
  lemma WrapFits(words: seq<string>)
    requires forall k :: 0 <= k < |words| ==> words[k] != []
    ensures forall k :: 0 <= k < |Wrap(words)| ==>
      Wrap(words)[k] != [] && (|Wrap(words)[k]| <= MaxWidth || Wrap(words)[k] in words)
  {
    WrapFromFits(words, "");
  }

  lemma JoinCons(x: string, parts: seq<string>, sep: string)
    requires parts != []
    ensures Join([x] + parts, sep) == x + sep + Join(parts, sep)
  {
    assert ([x] + parts)[1..] == parts;
  }

  /** Wrapping from a non-empty line always emits something. */
  lemma {:induction false} WrapFromNonEmpty(words: seq<string>, current: string)
    requires forall k :: 0 <= k < |words| ==> words[k] != []
    requires current != []
    ensures WrapFrom(words, current) != []
    decreases |words|
  {
    if words != [] {
      var word := words[0];
      if |current + " " + word| <= MaxWidth {
        WrapFromNonEmpty(words[1..], current + " " + word);
      }
    }
  }

  /** Joining the wrapped lines with single spaces gives back the line and the words, in order. */
  lemma {:induction false} WrapFromJoin(words: seq<string>, current: string)
    requires forall k :: 0 <= k < |words| ==> words[k] != []
    ensures Join(WrapFrom(words, current), " ") ==
      if current == [] then Join(words, " ")
      else if words == [] then current
      else current + " " + Join(words, " ")
    decreases |words|
  {
    if words != [] {
      var word := words[0];
      var rest := words[1..];
      assert rest != [] ==> Join(words, " ") == word + " " + Join(rest, " ");
      assert rest == [] ==> Join(words, " ") == word;
      if |current + " " + word| <= MaxWidth {
        var next := if current != [] then current + " " + word else word;
        WrapFromJoin(rest, next);
      } else {
        WrapFromJoin(rest, word);
        if current != [] {
          assert WrapFrom(words, current) == [current] + WrapFrom(rest, word);
          WrapFromNonEmpty(rest, word);
          JoinCons(current, WrapFrom(rest, word), " ");
        } else {
          assert WrapFrom(words, current) == WrapFrom(rest, word);
        }
      }
    }
  }

  /** No word is lost, split or reordered: the wrapped lines joined by spaces are the words joined by spaces. */
  lemma WrapJoin(words: seq<string>)
    requires forall k :: 0 <= k < |words| ==> words[k] != []
    ensures Join(Wrap(words), " ") == Join(words, " ")
  {
    WrapFromJoin(words, "");
  }

  /** What one source line contributes: its wrapped words and an empty line, or nothing when it is blank. */
  function LineBlock(line: string): seq<string>
  {
    if IsBlank(line) then [] else Wrap(SplitWhitespace(Strip(line))) + [""]
  }

  function CommentBody(lines: seq<string>): seq<string>
  {
    if lines == [] then [] else CommentBody(lines[..|lines| - 1]) + LineBlock(lines[|lines| - 1])
  }

  lemma CommentBodySnoc(lines: seq<string>, i: nat)
    requires i < |lines|
    ensures CommentBody(lines[..i + 1]) == CommentBody(lines[..i]) + LineBlock(lines[i])
  {
    assert lines[..i + 1][..i] == lines[..i];
  }

  function CommentBlockHeader(timestamp: string): seq<string>
  {
    ["\"\"\"", "Generated Comment Block - " + timestamp, Repeat('=', MaxWidth), ""]
  }

  function CommentBlockFooter(): seq<string>
  {
    [ Repeat('=', MaxWidth), "\"\"\"", ""
    , "# This is a comment block " + "generated from your text"
    , "# You can use this as documentation " + "in your Python projects"
    ]
  }

  /** The list `_create_comment_block` joins. */
  function CommentBlockLines(text: string, timestamp: string): seq<string>
  {
    CommentBlockHeader(timestamp) + CommentBody(SplitBy(text, IsNewline)) + CommentBlockFooter()
  }

  /** The inner loop of `_create_comment_block`: wraps the words of one line onto `codeLines`. */
  method AppendWrapped(codeLines: seq<string>, words: seq<string>) returns (r: seq<string>)
    ensures r == codeLines + Wrap(words)
  {
    r := codeLines;
    var currentLine := "";
    for j := 0 to |words|
      invariant r + WrapFrom(words[j..], currentLine) == codeLines + Wrap(words)
    {
      var word := words[j];
      assert words[j..][1..] == words[j + 1..];
      if |currentLine + " " + word| <= MaxWidth {
        currentLine := if currentLine != [] then currentLine + " " + word else word;
      } else {
        if currentLine != [] {
          r := r + [currentLine];
        }
        currentLine := word;
      }
    }
    if currentLine != [] {
      r := r + [currentLine];
    }
  }

  /** One pass of the outer loop of `_create_comment_block`: the entries for one source line. */
  method AppendLineBlock(codeLines: seq<string>, line: string) returns (r: seq<string>)
    ensures r == codeLines + LineBlock(line)
  {
    r := codeLines;
    if !IsBlank(line) {
      var words := SplitWhitespace(Strip(line));
      r := AppendWrapped(r, words);
      r := r + [""];
    }
  }

  /** The outer loop of `_create_comment_block`, over the source lines. */
  method AppendCommentBody(codeLines: seq<string>, lines: seq<string>) returns (r: seq<string>)
    ensures r == codeLines + CommentBody(lines)
  {
    r := codeLines;
    for i := 0 to |lines|
      invariant r == codeLines + CommentBody(lines[..i])
    {
      r := AppendLineBlock(r, lines[i]);
      CommentBodySnoc(lines, i);
      AppendAssoc(codeLines, CommentBody(lines[..i]), LineBlock(lines[i]));
    }
    assert lines[..|lines|] == lines;
  }

  /** `_create_comment_block(text)`. */
  method CreateCommentBlock(text: string, timestamp: string) returns (code: string)
    ensures code == Join(CommentBlockLines(text, timestamp), "\n")
  {
    var lines := SplitBy(text, IsNewline);
    var codeLines := CommentBlockHeader(timestamp);
    codeLines := AppendCommentBody(codeLines, lines);
    codeLines := codeLines + CommentBlockFooter();
    code := Join(codeLines, "\n");
  }

  /**
   * A non-blank source line becomes its wrapped lines followed by exactly one
   * empty entry: each wrapped line is non-empty and fits in 70 characters or
   * is a single word, and together they are the line's words in order.
   */
  lemma CommentLineBlock(line: string)
    requires !IsBlank(line)
    ensures var block := LineBlock(line);
      var words := SplitWhitespace(Strip(line));
      && block != [] && block[|block| - 1] == []
      && (forall k :: 0 <= k < |block| - 1 ==> block[k] != [] && (|block[k]| <= MaxWidth || block[k] in words))
      && Join(block[..|block| - 1], " ") == Join(words, " ")
  {
    var words := SplitWhitespace(Strip(line));
    var block := LineBlock(line);
    WrapFits(words);
    WrapJoin(words);
    assert block[..|block| - 1] == Wrap(words);
  }

  /** A blank source line contributes nothing. */
  lemma CommentBlankLine(line: string)
    requires IsBlank(line)
    ensures LineBlock(line) == []
  {
  }

  // ---------------------------------------------------------------------------
  // convert_text

  /** The keys of `self.templates`. */
  predicate IsTemplateType(templateType: int)
  {
    1 <= templateType <= 4
  }

  /** What the builder for `templateType` returns. */
  function TemplateCode(text: string, templateType: int, timestamp: string): string
    requires IsTemplateType(templateType)
  {
    if templateType == 1 then Join(PrintStatementLines(text, timestamp), "\n")
    else if templateType == 2 then Join(FunctionDefinitionLines(text, timestamp), "\n")
    else if templateType == 3 then Join(DropEmpty(ClassDefinitionLines(text, timestamp)), "\n")
    else Join(CommentBlockLines(text, timestamp), "\n")
  }

  /**
   * `convert_text(text, template_type)`: an unknown template is refused before
   * the text is looked at, a blank text is refused next, and otherwise the
   * matching builder runs.
   */
  method ConvertText(text: string, templateType: int, timestamp: string) returns (r: Result<string>)
    ensures !IsTemplateType(templateType) ==> r == ValueError("Invalid template type: " + IntToString(templateType))
    ensures IsTemplateType(templateType) && IsBlank(text) ==> r == ValueError("Input text cannot be empty")
    ensures IsTemplateType(templateType) && !IsBlank(text) ==> r == Ok(TemplateCode(text, templateType, timestamp))
  {
    if !IsTemplateType(templateType) {
      return ValueError("Invalid template type: " + IntToString(templateType));
    }
    if IsBlank(text) {
      return ValueError("Input text cannot be empty");
    }
    var code: string;
    if templateType == 1 {
      code := CreatePrintStatements(text, timestamp);
    } else if templateType == 2 {
      code := CreateFunctionDefinition(text, timestamp);
    } else if templateType == 3 {
      code := CreateClassDefinition(text, timestamp);
    } else {
      code := CreateCommentBlock(text, timestamp);
    }
    return Ok(code);
  }
}
