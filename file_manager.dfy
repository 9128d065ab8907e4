/**
 * The `FileManager` class: the comment block it writes above and below saved
 * code, the guard and file name of `save_code`, and the removal of that
 * framing when a file is loaded back.
 *
 * The class keeps one field, `base_directory`, set once in `__init__` and only
 * used to build paths for the file system, which the model leaves out; the
 * operations are therefore module-level functions and methods.
 */
module FileManager {
  import opened Results
  import opened Text
  import opened Seqs

  const TripleQuote: string := "\"\"\""

  /** `'"""' in line`. */
  predicate HasTripleQuote(line: string)
  {
    Contains(line, TripleQuote)
  }

  // ---------------------------------------------------------------------------
  // _generate_file_header, _generate_file_footer

  const ToolName: string := "Text to Code " + "Generator"

  /** The lines of the header text, for the title-cased code type `typeTitle`. */
  function HeaderLines(typeTitle: string, timestamp: string): seq<string>
  {
    [ TripleQuote
    , ToolName + " - " + typeTitle + " Code"
    , "Generated on: " + timestamp
    , Repeat('=', 37)
    , ""
    , "This file was " + "automatically " + "generated by the " + ToolName
    , "with Encryption " + "tool. "
    , ""
    , "Code Type: " + typeTitle
    , TripleQuote
    , ""
    , ""
    ]
  }

  /**
   * `_generate_file_header(code_type)`, stamped with `timestamp`: every header
   * line followed by a line break.
   */
  function GenerateFileHeader(codeType: string, timestamp: string): (r: string)
    ensures '\n' !in codeType && '\n' !in timestamp ==>
      SplitBy(r, IsNewline) == HeaderLines(Title(codeType), timestamp) + [""]
  {
    HeaderTextLines(codeType, timestamp);
    Join(HeaderLines(Title(codeType), timestamp), "\n") + "\n"
  }

  /** The lines of the footer text. */
  function FooterLines(): seq<string>
  {
    [ "", "", TripleQuote
    , "End of " + "generated code"
    , Repeat('=', 21)
    , ""
    , "This file was " + "created by " + ToolName + " with " + "Encryption."
    , "For more " + "information " + "about this tool, " + "check the " + "main.py file."
    , TripleQuote
    , ""
    ]
  }

  /** `_generate_file_footer()`: a line break before every footer line. */
  function GenerateFileFooter(): (r: string)
    ensures SplitBy(r, IsNewline) == [""] + FooterLines()
  {
    FooterTextLines();
    "\n" + Join(FooterLines(), "\n")
  }

  // ---------------------------------------------------------------------------
  // save_code

  /** What `save_code` writes: the file name and the text of the file. */
  datatype SavedFile = SavedFile(filename: string, content: string)

  /**
   * `save_code(code, code_type)` without the file system: `fileTimestamp` is
   * the `%Y%m%d_%H%M%S` time in the file name and `headerTimestamp` the
   * `%Y-%m-%d %H:%M:%S` time the header is stamped with (two separate clock
   * readings in the source).
   */
  function SaveCode(code: string, codeType: string, fileTimestamp: string, headerTimestamp: string): (r: Result<SavedFile>)
    ensures IsBlank(code) <==> r.ValueError?
    ensures r.ValueError? ==> r.message == "Cannot save empty code"
    ensures r.Ok? ==> r.value.filename == codeType + "_code_" + fileTimestamp + ".py"
    ensures r.Ok? ==> r.value.content == GenerateFileHeader(codeType, headerTimestamp) + code + GenerateFileFooter()
  {
    if IsBlank(code) then ValueError("Cannot save empty code")
    else
      var filename := codeType + "_code_" + fileTimestamp + ".py";
      Ok(SavedFile(filename, GenerateFileHeader(codeType, headerTimestamp) + code + GenerateFileFooter()))
  }

  // ---------------------------------------------------------------------------
  // _remove_file_headers_footers: specification

  /** The index of the first line at or after `i` that contains `"""`, or `|lines|` if there is none. */
  function QuoteFrom(lines: seq<string>, i: nat): (j: nat)
    requires i <= |lines|
    ensures i <= j <= |lines|
    ensures j < |lines| ==> HasTripleQuote(lines[j])
    ensures forall k :: i <= k < j ==> !HasTripleQuote(lines[k])
    decreases |lines| - i
  {
    if i == |lines| || HasTripleQuote(lines[i]) then i else QuoteFrom(lines, i + 1)
  }

  /** The index of the last line before `e` that contains `"""`, or -1 if there is none. */
  function QuoteBefore(lines: seq<string>, e: nat): (j: int)
    requires e <= |lines|
    ensures -1 <= j < e
    ensures j >= 0 ==> HasTripleQuote(lines[j])
    ensures forall k :: j < k < e ==> !HasTripleQuote(lines[k])
  {
    if e == 0 then -1
    else if HasTripleQuote(lines[e - 1]) then e - 1
    else QuoteBefore(lines, e - 1)
  }

  /** The header step: the lines from the first `"""` line through the second one are cut out, if there are two. */
  function CutHeader(lines: seq<string>): seq<string>
  {
    var s := QuoteFrom(lines, 0);
    if s == |lines| then lines
    else
      var e := QuoteFrom(lines, s + 1);
      if e == |lines| then lines else lines[..s] + lines[e + 1..]
  }

  /** The footer step: the lines from the second-to-last `"""` line through the last one are cut out, if there are two. */
  function CutFooter(lines: seq<string>): seq<string>
  {
    var last := QuoteBefore(lines, |lines|);
    if last < 0 then lines
    else
      var prev := QuoteBefore(lines, last);
      if prev < 0 then lines else lines[..prev] + lines[last + 1..]
  }

  /** The lines after the leading blank ones: a suffix that is empty or starts with a non-blank line. */
  function DropLeadingBlank(lines: seq<string>): (r: seq<string>)
    ensures |r| <= |lines| && r == lines[|lines| - |r|..]
    ensures r != [] ==> !IsBlank(r[0])
    ensures forall k :: 0 <= k < |lines| - |r| ==> IsBlank(lines[k])
  {
    if lines != [] && IsBlank(lines[0]) then DropLeadingBlank(lines[1..]) else lines
  }

  /** The lines before the trailing blank ones: a prefix that is empty or ends with a non-blank line. */
  function DropTrailingBlank(lines: seq<string>): (r: seq<string>)
    ensures |r| <= |lines| && r == lines[..|r|]
    ensures r != [] ==> !IsBlank(r[|r| - 1])
    ensures forall k :: |r| <= k < |lines| ==> IsBlank(lines[k])
  {
    if lines != [] && IsBlank(lines[|lines| - 1]) then DropTrailingBlank(lines[..|lines| - 1]) else lines
  }

  /** Blank lines removed from both ends, the leading ones first. */
  function TrimBlankLines(lines: seq<string>): seq<string>
  {
    DropTrailingBlank(DropLeadingBlank(lines))
  }

  /** The lines `_remove_file_headers_footers(content)` joins. */
  function PayloadLines(content: string): seq<string>
  {
    TrimBlankLines(CutFooter(CutHeader(SplitBy(content, IsNewline))))
  }

  // ---------------------------------------------------------------------------
  // _remove_file_headers_footers: the scans

  /** `_remove_file_headers_footers(content)`. */
  method RemoveFileHeadersFooters(content: string) returns (result: string)
    ensures result == Join(PayloadLines(content), "\n")
  {
    var lines := SplitBy(content, IsNewline);
    lines := RemoveHeader(lines);
    lines := RemoveFooter(lines);
    ghost var cut := lines;
    while lines != [] && IsBlank(lines[0])
      invariant DropLeadingBlank(lines) == DropLeadingBlank(cut)
    {
      lines := lines[1..];
    }
    ghost var led := lines;
    while lines != [] && IsBlank(lines[|lines| - 1])
      invariant DropTrailingBlank(lines) == DropTrailingBlank(led)
    {
      lines := lines[..|lines| - 1];
    }
    result := Join(lines, "\n");
  }

  /** The header step of `_remove_file_headers_footers`: the scan, then the cut. */
  method RemoveHeader(lines0: seq<string>) returns (lines: seq<string>)
    ensures lines == CutHeader(lines0)
  {
    lines := lines0;
    var startRemove, endRemove := ScanHeader(lines);
    if startRemove != -1 && endRemove != -1 {
      HeaderCutFound(lines0, startRemove, endRemove);
      lines := lines[..startRemove] + lines[endRemove + 1..];
    } else {
      HeaderCutMissing(lines0);
    }
  }

  /** With both `"""` lines found, the header cut removes the lines from the first through the second. */
  lemma HeaderCutFound(lines: seq<string>, s: nat, e: nat)
    requires s == QuoteFrom(lines, 0) < |lines|
    requires e == QuoteFrom(lines, s + 1) < |lines|
    ensures s < e && CutHeader(lines) == lines[..s] + lines[e + 1..]
  {
    HeaderCutExact(lines, s, e);
  }

  /** With a `"""` line missing, the header cut changes nothing. */
  lemma HeaderCutMissing(lines: seq<string>)
    requires QuoteFrom(lines, 0) == |lines| || QuoteFrom(lines, QuoteFrom(lines, 0) + 1) == |lines|
    ensures CutHeader(lines) == lines
  {
  }

  /**
   * The forward scan: the index of the first `"""` line and of the second one,
   * each -1 when there is no such line.
   */
  method ScanHeader(lines: seq<string>) returns (startRemove: int, endRemove: int)
    ensures startRemove == (if QuoteFrom(lines, 0) < |lines| then QuoteFrom(lines, 0) else -1)
    ensures endRemove == (if startRemove >= 0 && QuoteFrom(lines, startRemove + 1) < |lines|
                          then QuoteFrom(lines, startRemove + 1) else -1)
  {
    startRemove, endRemove := -1, -1;
    var quoteCount := 0;
    for i := 0 to |lines|
      invariant quoteCount <= 1 && endRemove == -1
      invariant quoteCount == 0 ==> startRemove == -1 && QuoteFrom(lines, 0) >= i
      invariant quoteCount == 1 ==> 0 <= startRemove == QuoteFrom(lines, 0) < i && QuoteFrom(lines, startRemove + 1) >= i
    {
      if quoteCount == 0 {
        QuoteFromStep(lines, 0, i);
      } else {
        QuoteFromStep(lines, startRemove + 1, i);
      }
      if HasTripleQuote(lines[i]) {
        quoteCount := quoteCount + 1;
        if quoteCount == 1 {
          startRemove := i;
        } else if quoteCount == 2 {
          endRemove := i;
          break;
        }
      }
    }
  }

  /** The backward scan for the last two `"""` lines, and the cut. */
  method RemoveFooter(lines0: seq<string>) returns (lines: seq<string>)
    ensures lines == CutFooter(lines0)
  {
    lines := lines0;
    var quoteCount, startRemove := 0, -1;
    for i := |lines| downto 0
      invariant lines == lines0
      invariant quoteCount <= 1
      invariant quoteCount == 0 ==> startRemove == -1 && QuoteBefore(lines, |lines|) < i
      invariant quoteCount == 1 ==> i <= startRemove == QuoteBefore(lines, |lines|) && QuoteBefore(lines, startRemove) < i
    {
      if quoteCount == 0 {
        QuoteBeforeStep(lines, |lines|, i);
      } else {
        QuoteBeforeStep(lines, startRemove, i);
      }
      if HasTripleQuote(lines[i]) {
        quoteCount := quoteCount + 1;
        if quoteCount == 1 {
          startRemove := i;
        } else if quoteCount == 2 {
          lines := lines[..i] + lines[startRemove + 1..];
          break;
        }
      }
    }
  }

  /** One step of the forward scan: line `i` is the first `"""` line from `a` on, or it lies further on. */
  lemma QuoteFromStep(lines: seq<string>, a: nat, i: nat)
    requires a <= i < |lines| && QuoteFrom(lines, a) >= i
    ensures HasTripleQuote(lines[i]) ==> QuoteFrom(lines, a) == i
    ensures !HasTripleQuote(lines[i]) ==> QuoteFrom(lines, a) > i
  {
  }

  /** One step of the backward scan: line `i` is the last `"""` line before `e`, or it lies further back. */
  lemma QuoteBeforeStep(lines: seq<string>, e: nat, i: nat)
    requires i < e <= |lines| && QuoteBefore(lines, e) <= i
    ensures HasTripleQuote(lines[i]) ==> QuoteBefore(lines, e) == i
    ensures !HasTripleQuote(lines[i]) ==> QuoteBefore(lines, e) < i
  {
  }

  // ---------------------------------------------------------------------------
  // properties of the removal

  /** No two lines contain `"""`. */
  predicate AtMostOneQuote(lines: seq<string>)
  {
    forall j, k :: 0 <= j < k < |lines| && HasTripleQuote(lines[j]) ==> !HasTripleQuote(lines[k])
  }

  /** The header step changes nothing exactly when fewer than two lines contain `"""`. */
  lemma CutHeaderUnchanged(lines: seq<string>)
    ensures CutHeader(lines) == lines <==> AtMostOneQuote(lines)
  {
    var s := QuoteFrom(lines, 0);
    if AtMostOneQuote(lines) {
      if s < |lines| {
        assert QuoteFrom(lines, s + 1) == |lines|;
      }
    } else {
      var j, k :| 0 <= j < k < |lines| && HasTripleQuote(lines[j]) && HasTripleQuote(lines[k]);
      assert s <= j;
      assert QuoteFrom(lines, s + 1) <= k;
      assert |CutHeader(lines)| < |lines|;
    }
  }

  /** The footer step changes nothing exactly when fewer than two lines contain `"""`. */
  lemma CutFooterUnchanged(lines: seq<string>)
    ensures CutFooter(lines) == lines <==> AtMostOneQuote(lines)
  {
    var last := QuoteBefore(lines, |lines|);
    if AtMostOneQuote(lines) {
      if last >= 0 {
        assert QuoteBefore(lines, last) < 0;
      }
    } else {
      var j, k :| 0 <= j < k < |lines| && HasTripleQuote(lines[j]) && HasTripleQuote(lines[k]);
      assert k <= last;
      assert j <= QuoteBefore(lines, last);
      assert |CutFooter(lines)| < |lines|;
    }
  }

  /**
   * With the first `"""` line at `s` and the second at `e`, the header step
   * removes exactly the lines `s` through `e`.
   */
  lemma HeaderCutExact(lines: seq<string>, s: nat, e: nat)
    requires s < e < |lines|
    requires HasTripleQuote(lines[s]) && HasTripleQuote(lines[e])
    requires forall k :: 0 <= k < e && k != s ==> !HasTripleQuote(lines[k])
    ensures CutHeader(lines) == lines[..s] + lines[e + 1..]
  {
    assert QuoteFrom(lines, 0) == s;
    assert QuoteFrom(lines, s + 1) == e;
  }

  /**
   * With the last `"""` line at `l` and the one before it at `p`, the footer
   * step removes exactly the lines `p` through `l`.
   */
  lemma FooterCutExact(lines: seq<string>, p: nat, l: nat)
    requires p < l < |lines|
    requires HasTripleQuote(lines[p]) && HasTripleQuote(lines[l])
    requires forall k :: p < k < |lines| && k != l ==> !HasTripleQuote(lines[k])
    ensures CutFooter(lines) == lines[..p] + lines[l + 1..]
  {
    assert QuoteBefore(lines, |lines|) == l;
    assert QuoteBefore(lines, l) == p;
  }

  lemma CutHeaderSubsequence(lines: seq<string>)
    ensures IsSubsequence(CutHeader(lines), lines)
  {
    var s := QuoteFrom(lines, 0);
    if s < |lines| && QuoteFrom(lines, s + 1) < |lines| {
      CutIsSubsequence(lines, s, QuoteFrom(lines, s + 1) + 1);
    } else {
      SelfSubsequence(lines);
    }
  }

  lemma CutFooterSubsequence(lines: seq<string>)
    ensures IsSubsequence(CutFooter(lines), lines)
  {
    var last := QuoteBefore(lines, |lines|);
    if last >= 0 && QuoteBefore(lines, last) >= 0 {
      CutIsSubsequence(lines, QuoteBefore(lines, last), last + 1);
    } else {
      SelfSubsequence(lines);
    }
  }

  lemma TrimSubsequence(lines: seq<string>)
    ensures IsSubsequence(TrimBlankLines(lines), lines)
  {
    var led := DropLeadingBlank(lines);
    SuffixIsSubsequence(lines, |lines| - |led|);
    SliceIsSubsequence(led, 0, |TrimBlankLines(lines)|);
    assert led[0..|TrimBlankLines(lines)|] == TrimBlankLines(lines);
    SubsequenceTransitive(TrimBlankLines(lines), led, lines);
  }

  /** The lines kept are the lines of `content`, in order, with some deleted. */
  lemma PayloadSubsequence(content: string)
    ensures IsSubsequence(PayloadLines(content), SplitBy(content, IsNewline))
  {
    var lines := SplitBy(content, IsNewline);
    CutHeaderSubsequence(lines);
    CutFooterSubsequence(CutHeader(lines));
    SubsequenceTransitive(CutFooter(CutHeader(lines)), CutHeader(lines), lines);
    TrimSubsequence(CutFooter(CutHeader(lines)));
    SubsequenceTransitive(PayloadLines(content), CutFooter(CutHeader(lines)), lines);
  }

  /** The kept lines neither start nor end with a whitespace-only line. */
  lemma PayloadEdgesNotBlank(content: string)
    ensures var r := PayloadLines(content); r != [] ==> !IsBlank(r[0]) && !IsBlank(r[|r| - 1])
  {
    var led := DropLeadingBlank(CutFooter(CutHeader(SplitBy(content, IsNewline))));
    var r := DropTrailingBlank(led);
    if r != [] {
      assert r[0] == led[0];
    }
  }

  /** With fewer than two `"""` lines, only the blank lines at both ends are removed. */
  lemma PayloadWithoutFraming(content: string)
    requires AtMostOneQuote(SplitBy(content, IsNewline))
    ensures PayloadLines(content) == TrimBlankLines(SplitBy(content, IsNewline))
  {
    var lines := SplitBy(content, IsNewline);
    CutHeaderUnchanged(lines);
    CutFooterUnchanged(lines);
  }

  // ---------------------------------------------------------------------------
  // saving and loading back

  /** No character of `s` is `c`. */
  predicate Avoids(s: string, c: char)
  {
    forall i :: 0 <= i < |s| ==> s[i] != c
  }

  /** `c.title()` keeps every character that is not a letter where it was, and adds none. */
  lemma TitleAvoids(s: string, c: char)
    requires !IsAsciiLetter(c) && Avoids(s, c)
    ensures Avoids(Title(s), c)
  {
  }

  lemma RepeatAvoids(c: char, n: nat, d: char)
    requires c != d
    ensures Avoids(Repeat(c, n), d)
  {
  }

  lemma HeaderPiecesAvoid(c: char)
    requires c == '\n' || c == '"'
    ensures Avoids(ToolName, c) && Avoids(" - ", c) && Avoids(" Code", c)
    ensures Avoids("Generated on: ", c) && Avoids("Code Type: ", c)
    ensures Avoids("This file was ", c) && Avoids("automatically ", c) && Avoids("generated by the ", c)
    ensures Avoids("with Encryption ", c) && Avoids("tool. ", c)
  {
  }

  lemma FooterPiecesAvoid(c: char)
    requires c == '\n' || c == '"'
    ensures Avoids("End of ", c) && Avoids("generated code", c)
    ensures Avoids("This file was ", c) && Avoids("created by ", c) && Avoids(ToolName, c)
    ensures Avoids(" with ", c) && Avoids("Encryption.", c)
    ensures Avoids("For more ", c) && Avoids("information ", c) && Avoids("about this tool, ", c)
    ensures Avoids("check the ", c) && Avoids("main.py file.", c)
  {
  }

  /** The header lines that hold neither the code type nor the timestamp avoid both `"` and line breaks. */
  lemma HeaderFixedLinesAvoid(typeTitle: string, timestamp: string, c: char)
    requires c == '\n' || c == '"'
    ensures var lines := HeaderLines(typeTitle, timestamp);
      forall k :: 2 < k < 12 && k != 8 && k != 9 ==> Avoids(lines[k], c)
  {
    HeaderPiecesAvoid(c);
    RepeatAvoids('=', 37, c);
  }

  /** No header line holds a line break. */
  lemma HeaderLinesAvoid(typeTitle: string, timestamp: string, c: char)
    requires c == '\n' || c == '"'
    requires Avoids(typeTitle, c) && Avoids(timestamp, c)
    ensures var lines := HeaderLines(typeTitle, timestamp);
      forall k :: 0 <= k < |lines| && k != 0 && k != 9 ==> Avoids(lines[k], c)
  {
    HeaderPiecesAvoid(c);
    HeaderFixedLinesAvoid(typeTitle, timestamp, c);
  }

  /** Only the two `"""` lines of the footer hold a quote, and no footer line holds a line break. */
  lemma FooterLinesAvoid(c: char)
    requires c == '\n' || c == '"'
    ensures forall k :: 0 <= k < |FooterLines()| && k != 2 && k != 8 ==> Avoids(FooterLines()[k], c)
  {
    FooterPiecesAvoid(c);
    RepeatAvoids('=', 21, c);
  }

  lemma HeaderSplit(typeTitle: string, timestamp: string)
    requires Avoids(typeTitle, '\n') && Avoids(timestamp, '\n')
    ensures SplitBy(Join(HeaderLines(typeTitle, timestamp), "\n"), IsNewline) == HeaderLines(typeTitle, timestamp)
  {
    HeaderLinesAvoid(typeTitle, timestamp, '\n');
    SplitJoin(HeaderLines(typeTitle, timestamp), '\n', IsNewline);
  }

  lemma FooterSplit()
    ensures SplitBy(Join(FooterLines(), "\n"), IsNewline) == FooterLines()
  {
    FooterLinesAvoid('\n');
    SplitJoin(FooterLines(), '\n', IsNewline);
  }

  /** Splitting `h`, a line break, `code`, a line break and `f` splits the three parts separately. */
  lemma SplitFramed(h: string, code: string, f: string)
    ensures SplitBy(h + "\n" + code + ("\n" + f), IsNewline)
         == SplitBy(h, IsNewline) + SplitBy(code, IsNewline) + SplitBy(f, IsNewline)
  {
    AppendAssoc(h + ['\n'] + code, ['\n'], f);
    AppendAssoc(h + ['\n'], code, ['\n']);
    AppendAssoc(h + ['\n'], code + ['\n'], f);
    assert h + "\n" + code + ("\n" + f) == h + ['\n'] + (code + ['\n'] + f);
    SplitAroundSeparator(code, '\n', f, IsNewline);
    SplitAroundSeparator(h, '\n', code + ['\n'] + f, IsNewline);
    AppendAssoc(SplitBy(h, IsNewline), SplitBy(code, IsNewline), SplitBy(f, IsNewline));
  }

  /** The header text is its lines, each ended by a line break. */
  lemma HeaderTextLines(codeType: string, timestamp: string)
    ensures '\n' !in codeType && '\n' !in timestamp ==>
      SplitBy(Join(HeaderLines(Title(codeType), timestamp), "\n") + "\n", IsNewline)
        == HeaderLines(Title(codeType), timestamp) + [""]
  {
    if '\n' !in codeType && '\n' !in timestamp {
      var h := Join(HeaderLines(Title(codeType), timestamp), "\n");
      assert h + "\n" == h + ['\n'] + [];
      SplitAroundSeparator(h, '\n', [], IsNewline);
      SplitWithoutSeparator([], IsNewline);
      assert Avoids(codeType, '\n') && Avoids(timestamp, '\n');
      TitleAvoids(codeType, '\n');
      HeaderSplit(Title(codeType), timestamp);
    }
  }

  /** The footer text is a line break followed by its lines. */
  lemma FooterTextLines()
    ensures SplitBy("\n" + Join(FooterLines(), "\n"), IsNewline) == [""] + FooterLines()
  {
    var f := Join(FooterLines(), "\n");
    assert "\n" + f == [] + ['\n'] + f;
    SplitAroundSeparator([], '\n', f, IsNewline);
    SplitWithoutSeparator([], IsNewline);
    FooterSplit();
  }

  /** The saved text splits into the header lines, the lines of the code and the footer lines. */
  lemma FramedSplit(codeType: string, timestamp: string, code: string)
    requires '\n' !in codeType && '\n' !in timestamp
    ensures SplitBy(GenerateFileHeader(codeType, timestamp) + code + GenerateFileFooter(), IsNewline)
         == HeaderLines(Title(codeType), timestamp) + SplitBy(code, IsNewline) + FooterLines()
  {
    var t := Title(codeType);
    assert Avoids(codeType, '\n') && Avoids(timestamp, '\n');
    TitleAvoids(codeType, '\n');
    HeaderSplit(t, timestamp);
    FooterSplit();
    SplitFramed(Join(HeaderLines(t, timestamp), "\n"), code, Join(FooterLines(), "\n"));
  }

  /** The header step on a saved file removes the header up to its two closing empty lines. */
  lemma FramedHeaderCut(hl: seq<string>, c: seq<string>, fl: seq<string>)
    requires |hl| == 12 && hl[10] == [] && hl[11] == []
    requires HasTripleQuote(hl[0]) && HasTripleQuote(hl[9])
    requires forall k :: 0 < k < 9 ==> !HasTripleQuote(hl[k])
    ensures CutHeader(hl + c + fl) == [[], []] + c + fl
  {
    var lines := hl + c + fl;
    HeaderCutExact(lines, 0, 9);
    assert lines[..0] + lines[10..] == [[], []] + c + fl;
  }

  /**
   * The footer step on a saved file removes the footer from its first `"""`
   * line on, whatever the code lines `c` hold.
   */
  lemma FramedFooterCut(c: seq<string>, fl: seq<string>)
    requires |fl| == 10 && fl[0] == [] && fl[1] == [] && fl[9] == []
    requires HasTripleQuote(fl[2]) && HasTripleQuote(fl[8])
    requires forall k :: 2 < k < 8 ==> !HasTripleQuote(fl[k])
    ensures CutFooter([[], []] + c + fl) == [[], []] + c + [[], [], []]
  {
    var lines := [[], []] + c + fl;
    var n := |c|;
    assert !HasTripleQuote(fl[9]);
    FooterCutExact(lines, n + 4, n + 10);
    assert lines[..n + 4] == [[], []] + c + [[], []];
    assert lines[n + 11..] == [[]];
  }

  lemma {:induction false} DropLeadingBlankPrefix(b: seq<string>, x: seq<string>)
    requires forall k :: 0 <= k < |b| ==> IsBlank(b[k])
    ensures DropLeadingBlank(b + x) == DropLeadingBlank(x)
  {
    if b != [] {
      assert (b + x)[1..] == b[1..] + x;
      DropLeadingBlankPrefix(b[1..], x);
    } else {
      assert b + x == x;
    }
  }

  lemma {:induction false} DropTrailingBlankSuffix(x: seq<string>, b: seq<string>)
    requires forall k :: 0 <= k < |b| ==> IsBlank(b[k])
    ensures DropTrailingBlank(x + b) == DropTrailingBlank(x)
  {
    if b != [] {
      var m := |b| - 1;
      assert (x + b)[..|x + b| - 1] == x + b[..m];
      DropTrailingBlankSuffix(x, b[..m]);
    } else {
      assert x + b == x;
    }
  }

  lemma {:induction false} TrimBlankSuffix(x: seq<string>, b: seq<string>)
    requires forall k :: 0 <= k < |b| ==> IsBlank(b[k])
    ensures TrimBlankLines(x + b) == TrimBlankLines(x)
  {
    if x == [] {
      assert x + b == b;
      assert DropLeadingBlank(b) == [];
    } else if IsBlank(x[0]) {
      assert (x + b)[1..] == x[1..] + b;
      TrimBlankSuffix(x[1..], b);
    } else {
      DropTrailingBlankSuffix(x, b);
    }
  }

  /** Blank lines around `x` do not change what trimming leaves of it. */
  lemma TrimPadding(a: seq<string>, x: seq<string>, b: seq<string>)
    requires forall k :: 0 <= k < |a| ==> IsBlank(a[k])
    requires forall k :: 0 <= k < |b| ==> IsBlank(b[k])
    ensures TrimBlankLines(a + x + b) == TrimBlankLines(x)
  {
    AppendAssoc(a, x, b);
    DropLeadingBlankPrefix(a, x + b);
    TrimBlankSuffix(x, b);
  }

  /** A line without a `"` does not contain `"""`. */
  lemma AvoidsTripleQuote(line: string)
    requires Avoids(line, '"')
    ensures !HasTripleQuote(line)
  {
    NotContainsMissingChar(line, TripleQuote, '"');
  }

  /** A `"""` in `x` wrapped in pieces without `"` can only come from `x`. */
  lemma WrappedTripleQuote(a: string, x: string, b: string)
    requires Avoids(a, '"') && Avoids(b, '"')
    ensures HasTripleQuote(a + x + b) ==> HasTripleQuote(x)
  {
    if HasTripleQuote(a + x + b) {
      assert '"' !in a && '"' !in b;
      assert a + x + b == a + (x + b);
      ContainsDropPrefix(a, x + b, TripleQuote, '"');
      ContainsDropSuffix(x, b, TripleQuote, '"');
    }
  }

  /** Title-casing does not create a `"""`. */
  lemma TitleTripleQuote(s: string)
    ensures HasTripleQuote(Title(s)) ==> HasTripleQuote(s)
  {
    if HasTripleQuote(Title(s)) {
      ContainsTransfer(Title(s), s, TripleQuote, '"');
    }
  }

  /** Where the header's `"""` lines are. */
  lemma HeaderQuotes(typeTitle: string, timestamp: string)
    requires !HasTripleQuote(typeTitle) && !HasTripleQuote(timestamp)
    ensures var hl := HeaderLines(typeTitle, timestamp);
      |hl| == 12 && hl[10] == [] && hl[11] == [] &&
      HasTripleQuote(hl[0]) && HasTripleQuote(hl[9]) && forall k :: 0 < k < 9 ==> !HasTripleQuote(hl[k])
  {
    var hl := HeaderLines(typeTitle, timestamp);
    HeaderPiecesAvoid('"');
    HeaderFixedLinesAvoid(typeTitle, timestamp, '"');
    WrappedTripleQuote(ToolName + " - ", typeTitle, " Code");
    assert hl[2] == "Generated on: " + timestamp + "";
    WrappedTripleQuote("Generated on: ", timestamp, "");
    assert hl[8] == "Code Type: " + typeTitle + "";
    WrappedTripleQuote("Code Type: ", typeTitle, "");
    forall k | 2 < k < 8
      ensures !HasTripleQuote(hl[k])
    {
      AvoidsTripleQuote(hl[k]);
    }
    assert TripleQuote <= TripleQuote;
  }

  /** Where the footer's `"""` lines are. */
  lemma FooterQuotes()
    ensures var fl := FooterLines();
      |fl| == 10 && fl[0] == [] && fl[1] == [] && fl[9] == [] &&
      HasTripleQuote(fl[2]) && HasTripleQuote(fl[8]) && forall k :: 2 < k < 8 ==> !HasTripleQuote(fl[k])
  {
    var fl := FooterLines();
    FooterLinesAvoid('"');
    forall k | 2 < k < 8
      ensures !HasTripleQuote(fl[k])
    {
      AvoidsTripleQuote(fl[k]);
    }
    assert TripleQuote <= TripleQuote;
  }

  /**
   * The layout of the header lines `hl` and the footer lines `fl`: `"""` on
   * header lines 0 and 9 and footer lines 2 and 8 only, and empty lines after
   * the header's closing quote and around the footer.
   */
  predicate FramedShape(hl: seq<string>, fl: seq<string>)
  {
    && |hl| == 12 && hl[10] == [] && hl[11] == []
    && HasTripleQuote(hl[0]) && HasTripleQuote(hl[9])
    && (forall k :: 0 < k < 9 ==> !HasTripleQuote(hl[k]))
    && |fl| == 10 && fl[0] == [] && fl[1] == [] && fl[9] == []
    && HasTripleQuote(fl[2]) && HasTripleQuote(fl[8])
    && (forall k :: 2 < k < 8 ==> !HasTripleQuote(fl[k]))
  }

  /** The header and footer `save_code` writes have that layout. */
  lemma FramingLayout(codeType: string, timestamp: string)
    requires !HasTripleQuote(codeType) && !HasTripleQuote(timestamp)
    ensures FramedShape(HeaderLines(Title(codeType), timestamp), FooterLines())
  {
    TitleTripleQuote(codeType);
    HeaderQuotes(Title(codeType), timestamp);
    FooterQuotes();
  }

  /** Removing the framing from lines laid out as a saved file leaves the trimmed code lines. */
  lemma FramedPayload(hl: seq<string>, c: seq<string>, fl: seq<string>)
    requires FramedShape(hl, fl)
    ensures TrimBlankLines(CutFooter(CutHeader(hl + c + fl))) == TrimBlankLines(c)
  {
    FramedHeaderCut(hl, c, fl);
    FramedFooterCut(c, fl);
    assert IsBlank([]);
    TrimPadding([[], []], c, [[], [], []]);
  }

  /**
   * Loading back what was saved: removing the framing from header + code +
   * footer gives the lines of the code without its leading and trailing
   * whitespace-only lines, as long as neither the code type nor the timestamp
   * holds `"""` or a line break. The code itself may hold `"""` lines, as the
   * generated function, class and comment snippets do: the header scan stops
   * at the header's closing quote line before reaching the code, and the
   * backward footer scan stops at the footer's opening quote line after it.
   */
  lemma FramingRoundTrip(codeType: string, timestamp: string, code: string)
    requires '\n' !in codeType && '\n' !in timestamp
    requires !HasTripleQuote(codeType) && !HasTripleQuote(timestamp)
    ensures PayloadLines(GenerateFileHeader(codeType, timestamp) + code + GenerateFileFooter())
         == TrimBlankLines(SplitBy(code, IsNewline))
  {
    FramedSplit(codeType, timestamp, code);
    FramingLayout(codeType, timestamp);
    FramedPayload(HeaderLines(Title(codeType), timestamp), SplitBy(code, IsNewline), FooterLines());
  }

  /** Every character is whitespace. */
  predicate AllSpace(s: string)
  {
    forall i :: 0 <= i < |s| ==> IsSpace(s[i])
  }

  lemma BlankIffAllSpace(s: string)
    ensures IsBlank(s) <==> AllSpace(s)
  {
  }

  lemma AllSpaceAround(a: string, c: char, b: string)
    ensures AllSpace(a + [c] + b) <==> AllSpace(a) && IsSpace(c) && AllSpace(b)
  {
    var s := a + [c] + b;
    assert forall i :: 0 <= i < |a| ==> s[i] == a[i];
    assert s[|a|] == c;
    assert forall i :: 0 <= i < |b| ==> s[|a| + 1 + i] == b[i];
  }

  /** `code.strip()` is empty exactly when every line of `code` is. */
  lemma BlankIffLinesBlank(code: string)
    ensures IsBlank(code) <==> forall k :: 0 <= k < |SplitBy(code, IsNewline)| ==> IsBlank(SplitBy(code, IsNewline)[k])
  {
    var lines := SplitBy(code, IsNewline);
    AllSpaceIffLines(code);
    BlankIffAllSpace(code);
    forall k | 0 <= k < |lines|
      ensures IsBlank(lines[k]) <==> AllSpace(lines[k])
    {
      BlankIffAllSpace(lines[k]);
    }
  }

  lemma {:induction false} AllSpaceIffLines(code: string)
    ensures AllSpace(code) <==> forall k :: 0 <= k < |SplitBy(code, IsNewline)| ==> AllSpace(SplitBy(code, IsNewline)[k])
    decreases |code|
  {
    var i := FindFirst(code, IsNewline);
    if i < |code| {
      AllSpaceIffLines(code[i + 1..]);
      AllSpaceStep(code, i);
    } else {
      SplitWithoutSeparator(code, IsNewline);
      assert SplitBy(code, IsNewline)[0] == code;
    }
  }

  /** The step at the first line break: the first line, then the lines after it. */
  lemma AllSpaceStep(code: string, i: nat)
    requires i < |code| && code[i] == '\n'
    requires forall j :: 0 <= j < i ==> !IsNewline(code[j])
    requires var tail := SplitBy(code[i + 1..], IsNewline);
      AllSpace(code[i + 1..]) <==> forall k :: 0 <= k < |tail| ==> AllSpace(tail[k])
    ensures AllSpace(code) <==> forall k :: 0 <= k < |SplitBy(code, IsNewline)| ==> AllSpace(SplitBy(code, IsNewline)[k])
  {
    var rest := code[i + 1..];
    var tail := SplitBy(rest, IsNewline);
    SplitAtFirst(code, i, IsNewline);
    assert code == code[..i] + [code[i]] + rest;
    AllSpaceAround(code[..i], code[i], rest);
    var lines := SplitBy(code, IsNewline);
    assert lines == [code[..i]] + tail;
    assert IsSpace(code[i]);
    if AllSpace(code) {
      forall k | 0 <= k < |lines|
        ensures AllSpace(lines[k])
      {
        if k > 0 {
          assert lines[k] == tail[k - 1];
        }
      }
    }
    if forall k :: 0 <= k < |lines| ==> AllSpace(lines[k]) {
      forall k | 0 <= k < |tail|
        ensures AllSpace(tail[k])
      {
        assert tail[k] == lines[k + 1];
      }
      assert AllSpace(lines[0]);
    }
  }

  /** Trimming leaves nothing exactly when every line is blank. */
  lemma TrimEmptyIffAllBlank(lines: seq<string>)
    ensures TrimBlankLines(lines) == [] <==> forall k :: 0 <= k < |lines| ==> IsBlank(lines[k])
  {
    var led := DropLeadingBlank(lines);
    if led != [] {
      assert !IsBlank(led[0]);
    }
  }

  /**
   * `_remove_file_headers_footers` applied to the content `save_code` builds
   * gives the trimmed lines of the code, and they are never empty: the guard
   * rejects exactly the code whose every line is blank.
   */
  lemma SavedCodeLoadsBack(code: string, codeType: string, fileTimestamp: string, headerTimestamp: string)
    requires '\n' !in codeType && '\n' !in headerTimestamp
    requires !HasTripleQuote(codeType) && !HasTripleQuote(headerTimestamp)
    ensures var r := SaveCode(code, codeType, fileTimestamp, headerTimestamp);
      r.Ok? <==> TrimBlankLines(SplitBy(code, IsNewline)) != []
    ensures var r := SaveCode(code, codeType, fileTimestamp, headerTimestamp);
      r.Ok? ==> PayloadLines(r.value.content) == TrimBlankLines(SplitBy(code, IsNewline))
  {
    BlankIffLinesBlank(code);
    TrimEmptyIffAllBlank(SplitBy(code, IsNewline));
    FramingRoundTrip(codeType, headerTimestamp, code);
  }
}
