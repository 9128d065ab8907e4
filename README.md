# Text to Code Generator with Encryption — a Dafny model of its core

This project models the string logic of a small Python tool with three parts:

- a Caesar cipher over a fixed character set;
- a converter that turns free text into one of four Python snippets;
- a file manager that frames saved code with a header and a footer and strips them again on loading.

It proves what each part promises:

- the cipher's round trip and its error cases;
- the shape of every generated snippet;
- the save/load round trip on the code between the framing lines.

The project has six modules, one per file:

| module | file | contents |
|---|---|---|
| `Results` | `results.dfy` | `Result` (a value, or the `ValueError` message the source raises) and `Option` |
| `Seqs` | `seqs.dfy` | `IndexOf` (`list.index`), distinctness, first-occurrence order of a sequence, in-order subsequences |
| `Text` | `text.dfy` | Python's `str` operations over ASCII: `strip`, `split`, `join`, `lower`, `title`, `in`, integer formatting |
| `Encryption` | `encryption.dfy` | `CaesarCipher` from `encryption.py` |
| `TextToCode` | `text_to_code.dfy` | `TextToCodeConverter` from `text_to_code.py` |
| `FileManager` | `file_manager.dfy` | header/footer framing and the `save_code` guard from `file_manager.py` |

Each of the three classes sets its fields once in `__init__` and never updates them. The fields become module constants: the 97-symbol `Charset`, the template table, and nothing for the file manager.

Each Python loop becomes a Dafny `method` with a `while` or `for` loop. The method's `ensures` ties its result to a specification function, and lemmas about that function state what the source promises. A method that builds a list in several loops calls one helper method per loop, and each helper is proved on its own.

The current time is a `timestamp` string parameter wherever the source calls `datetime.now()`. `save_code` reads the clock twice, once for the filename and once for the header, so `SaveCode` takes two timestamps.

## Model

| member | source | states |
|---|---|---|
| Encryption.ValidateShift | encryption.py:155-168 | the `1 <= shift <= 25` guard that `Encrypt`, `Decrypt`, `BruteForceDecrypt` and `ValidShiftMovesEveryCharacter` use; a valid shift lies strictly between 0 and the alphabet size of 97, so it is never a whole turn |
| Encryption.CharsetIsPythonAlphabet | encryption.py:14-17 | the symbol-by-symbol alphabet is exactly `ascii_letters + digits + punctuation + ' \n\t'` |
| Encryption.CharacterSetsSpelledOut | encryption.py:17 | the character ranges used for `ascii_lowercase`, `ascii_uppercase`, `digits` and `punctuation` equal the literal strings of Python's `string` module |
| Encryption.CharsetDistinct | encryption.py:17 | the alphabet has 97 symbols, pairwise distinct, so the modulus is 97 |
| Encryption.IndexIsRank | encryption.py:44 | `charset.index(c)` of a symbol is its rank computed from its code |
| Encryption.CharsetPrintable | encryption.py:17 | every alphabet symbol is in `string.printable` |
| Encryption.ShiftText | encryption.py:39-52 | the character loop produces the text shifted symbol by symbol, with other characters kept |
| Encryption.Encrypt | encryption.py:19-52 | an invalid shift is refused first, an empty text second, and otherwise the result is the text shifted by `+shift` |
| Encryption.Decrypt | encryption.py:54-87 | an invalid shift is refused first, an empty text second, and otherwise the result is the text shifted by `-shift` |
| Encryption.ShiftCharIndex | encryption.py:41-50 | a symbol at index `p` becomes the symbol at index `(p + offset) mod n` and stays in the alphabet |
| Encryption.ShiftPositions | encryption.py:41-50 | the length is kept; a character outside the alphabet stays in place; a symbol at index `p` becomes the symbol at `(p + offset) mod n` |
| Encryption.CipherPositions | encryption.py:41-50 | the same on the 97-symbol charset, in terms of rank |
| Encryption.RoundTrip | encryption.py:41-85 | for any alphabet without duplicates, shifting back undoes a shift and shifting forward undoes a shift back, for every text and offset |
| Encryption.CipherRoundTrip | encryption.py:19-87 | `decrypt(encrypt(t, s), s) == t` and `encrypt(decrypt(t, s), s) == t` |
| Encryption.ShiftMovesEverySymbol | encryption.py:46 | a shift strictly between 0 and the alphabet size moves every symbol, in both directions |
| Encryption.ValidShiftMovesEveryCharacter | encryption.py:33-46 | a shift that passes validation changes every charset symbol, on encrypt and on decrypt |
| Encryption.BruteForceDecrypt | encryption.py:89-111 | an empty text is refused; otherwise the keys are exactly 1..25, each value is the decryption with that shift, and the entry for `s` is `t` whenever the text is `encrypt(t, s)` |
| Encryption.AnalyzeEncryptedText | encryption.py:113-153 | an empty text yields only the error entry; otherwise it gives the length, the distinct-character count, and each character's exact count keyed in first-occurrence order; the counts sum to the length and the printable and non-printable counts add up to it; the most common entry has the maximal count and is, among characters with that count, the earliest one in the text |
| Encryption.CountCharacters | encryption.py:135-142 | the counting loop yields each character's multiplicity, the key order of first occurrences, and the printable and non-printable counts |
| Encryption.CountCharacter | encryption.py:136-142 | one loop pass extends those quantities to one more character |
| Encryption.CountFirst | encryption.py:137 | a character seen for the first time gets count 1 and becomes the last key |
| Encryption.CountAgain | encryption.py:137 | a character seen before has its count raised by 1 and keeps its key position |
| Encryption.FirstOccurrencesSnoc | encryption.py:137 | the dictionary's key order gains a character exactly when it is new |
| Encryption.SumFrequenciesBump | encryption.py:137 | raising one count by 1 raises the sum of the counts by 1 |
| Encryption.MaxByCount | encryption.py:146 | `max` over the dictionary's items returns a key whose count is maximal, and no earlier key has that count |
| Encryption.AlphabetTextIsPrintable | encryption.py:139-142 | a text made only of charset symbols (any ciphertext of such a text) has every character printable |
| Encryption.CountPrintable | encryption.py:139-142 | the printable count never exceeds the length, and equals it exactly when every character is in `string.printable` |
| Encryption.InsertSorted | encryption.py:203 | inserting into a strictly ascending list keeps it strictly ascending and adds exactly that element |
| Encryption.SortedDistinct | encryption.py:203 | `sorted(set(s))` is strictly ascending and has exactly the elements of `s` |
| Encryption.AscendingUnique | encryption.py:203 | two strictly ascending lists with the same elements are equal, so `sorted(set(s))` is determined by the elements of `s` |
| Encryption.SortedDistinctOfAscending | encryption.py:203 | a strictly ascending list is its own `sorted(set(...))` |
| Encryption.MatchPatterns | encryption.py:183-196 | the pattern loop yields exactly the shifts whose pattern occurs in the sample (ignoring case), at most five of them |
| Encryption.GenerateShiftSuggestions | encryption.py:170-205 | an empty sample gives `[1, 3, 5, 13]`; no match gives `[1, 3, 5, 7, 13]`; otherwise the result is strictly ascending, at most 5 long, and holds exactly the matched shifts |
| TextToCode.StrippedNonBlank | text_to_code.py:222 | every kept piece is non-empty and has no surrounding whitespace |
| TextToCode.StrippedNonBlankAppend | text_to_code.py:222 | the comprehension distributes over concatenation of piece lists |
| TextToCode.SplitIntoSentences | text_to_code.py:210-222 | every sentence is non-empty, has no surrounding whitespace, and holds none of `.`, `!`, `?` |
| TextToCode.SentenceWithoutMarks | text_to_code.py:221-222 | a text without marks is one sentence, its stripped self, or none when it is blank |
| TextToCode.SentencesAroundMark | text_to_code.py:221-222 | a mark separates: the sentences of `a + mark + b` are those of `a` followed by those of `b` |
| TextToCode.EscapeQuotes | text_to_code.py:63 | every `"` in the escaped sentence is preceded by a backslash |
| TextToCode.EscapeRoundTrip | text_to_code.py:63 | escaping loses nothing: unescaping gives the sentence back |
| TextToCode.ReplaceNonIdent | text_to_code.py:235 | the substitution keeps the length |
| TextToCode.CollapseUnderscores | text_to_code.py:242 | the result has no double underscore, keeps the first and last characters, adds no character and is empty only for an empty input |
| TextToCode.CollapseWithoutDoubles | text_to_code.py:242 | a string without double underscores is unchanged |
| TextToCode.CreateIdentifier | text_to_code.py:224-251 | the result is a shaped identifier, and it is `generated_item` exactly when fewer than 3 characters survive stripping |
| TextToCode.IdentifierShape | text_to_code.py:234-245 | before the fallback, the identifier has only `[a-z0-9_]`, no `__`, and no underscore at either end |
| TextToCode.IdentifierIdempotent | text_to_code.py:224-251 | applied to its own result that does not start with a digit, `_create_identifier` changes nothing |
| TextToCode.IdentifierOfShaped | text_to_code.py:234-251 | a shaped identifier that does not start with a digit is kept as it is |
| TextToCode.IdentifierMayStartWithDigit | text_to_code.py:237-245 | `"!123"` gives `"123"`: a result can start with a digit |
| TextToCode.MethodNameKept | text_to_code.py:146 | `_create_identifier(f"method_{i}")` is `method_{i}` |
| TextToCode.AlnumRuns | text_to_code.py:264 | every run is non-empty and made of ASCII letters and digits |
| TextToCode.AlnumRunsCover | text_to_code.py:264 | the runs together are exactly the letters and digits of the text, in order |
| TextToCode.Capitalize | text_to_code.py:270 | capitalizing keeps the length and the lower-cased form |
| TextToCode.CapitalizeAll | text_to_code.py:270 | each word is capitalized, none is added or dropped |
| TextToCode.ClassNameShape | text_to_code.py:270-274 | the PascalCase join of the runs is non-empty, starts with the first run's first character upper-cased, is all letters and digits, and equals the runs ignoring case |
| TextToCode.CreateClassName | text_to_code.py:253-276 | with no run, the name is `GeneratedClass`; otherwise it is non-empty, alphanumeric, starts with an uppercase letter, and lower-cases to the first three runs (with `generated` in front when the first run starts with a digit) |
| TextToCode.Ellipsized | text_to_code.py:92 | the preview starts with the first `n` characters and is at most `n + 3` long |
| TextToCode.FirstWords | text_to_code.py:79 | at most `n` words are kept |
| TextToCode.TrimmedIsItsStrip | text_to_code.py:61-63 | for a sentence, the builders' `if sentence.strip()` always holds and `strip()` changes nothing |
| TextToCode.StatementLines | text_to_code.py:60-64 | one print line per sentence |
| TextToCode.CreatePrintStatements | text_to_code.py:46-71 | the snippet is the header, the statement lines and the footer, joined by line breaks |
| TextToCode.PrintStatementsPerSentence | text_to_code.py:54-69 | there is exactly one `print("Statement i: …")` line per sentence, numbered from 1 in order, carrying the escaped sentence between a fixed header and footer |
| TextToCode.PrintStatementsSingleSentence | text_to_code.py:46-71 | a text without sentence marks becomes exactly one print statement of the stripped text |
| TextToCode.BodyLines | text_to_code.py:97-100 | one body line per sentence |
| TextToCode.AppendFunctionBody | text_to_code.py:97-100 | the body loop appends exactly the print line of each sentence, in order |
| TextToCode.CreateFunctionDefinition | text_to_code.py:73-110 | the snippet is the function's line list joined by line breaks |
| TextToCode.FunctionDefinitionShape | text_to_code.py:85-108 | the function is defined and called under the same name, the docstring quotes the preview, and the body is one print line per sentence and nothing else |
| TextToCode.FunctionDefinitionName | text_to_code.py:79-89 | the name is `_create_identifier` of the first three words joined by `_`, hence a shaped identifier |
| TextToCode.FunctionDefinitionPreview | text_to_code.py:92 | a text of at most 60 characters is quoted whole; a longer one is cut to 60 characters plus `...` |
| TextToCode.MethodBlocks | text_to_code.py:144-154 | five list entries per method |
| TextToCode.MethodBlocksAt | text_to_code.py:144-154 | method block `k` declares `method_{k+1}` |
| TextToCode.AppendMethod | text_to_code.py:145-154 | one loop pass appends the five entries of that sentence's method |
| TextToCode.AppendMethods | text_to_code.py:144-154 | the method loop appends one method block per sentence, in order |
| TextToCode.CreateClassDefinition | text_to_code.py:112-166 | the snippet is the class's line list with its empty entries dropped, joined by line breaks |
| TextToCode.ClassDefinitionMethods | text_to_code.py:124-164 | there is one method per sentence up to three, named `method_1` to `method_3` in order, and the example calls `method_1` exactly when there is a sentence |
| TextToCode.DropEmptySnoc | text_to_code.py:166 | `filter(None, …)` keeps a new entry exactly when it is non-empty |
| TextToCode.ClassDefinitionEnding | text_to_code.py:156-166 | after the empty entries are dropped, the code ends with the `method_1` call when there is a sentence and with the `display_info` call otherwise |
| TextToCode.ClassDefinitionOfText | text_to_code.py:112-164 | the class is named by `_create_class_name` of the first two words, that name starts with an uppercase letter, and there is one method per sentence up to three |
| TextToCode.AppendWrapped | text_to_code.py:186-197 | the wrapping loop appends exactly the greedy wrap of the words |
| TextToCode.AppendLineBlock | text_to_code.py:183-198 | one pass of the outer loop appends the entries of one source line |
| TextToCode.AppendCommentBody | text_to_code.py:182-198 | the outer loop appends the entries of every source line, in order |
| TextToCode.CreateCommentBlock | text_to_code.py:168-208 | the snippet is the comment block's line list joined by line breaks |
| TextToCode.WrapFits | text_to_code.py:188-197 | every wrapped line is non-empty and at most 70 characters long, or is a single word |
| TextToCode.WrapJoin | text_to_code.py:188-197 | the wrapped lines joined by single spaces are the words joined by single spaces: nothing is lost, split or reordered |
| TextToCode.CommentLineBlock | text_to_code.py:183-198 | a non-blank source line becomes its wrapped lines (each fitting, together its words in order) followed by exactly one empty entry |
| TextToCode.CommentBlankLine | text_to_code.py:183 | a blank source line contributes nothing |
| TextToCode.ConvertText | text_to_code.py:24-44 | an unknown template type is refused before the text is looked at, a blank text is refused next, and otherwise the matching builder's snippet is returned |
| Text.SplitJoin | file_manager.py:279 | splitting at the separator undoes joining with it when no part holds the separator |
| Seqs.SubsequenceTransitive | file_manager.py:297-317 | an in-order subsequence of an in-order subsequence is one of the original |
| FileManager.GenerateFileHeader | file_manager.py:244-260 | when the code type and timestamp hold no line break, the header is exactly its twelve lines, each ended by a line break; `HeaderQuotes` and `FramingLayout` place its `"""` lines |
| FileManager.GenerateFileFooter | file_manager.py:262-275 | the footer is a line break followed by exactly its ten lines; `FooterQuotes` and `FramingLayout` place its `"""` lines |
| FileManager.SaveCode | file_manager.py:33-65 | whitespace-only code is refused with `Cannot save empty code`; otherwise the filename is `code_type + "_code_" + timestamp + ".py"` and the content is header, code and footer in that order |
| FileManager.QuoteFrom | file_manager.py:286-293 | the first line at or after `i` holding `"""`, or the number of lines when there is none |
| FileManager.QuoteBefore | file_manager.py:303-310 | the last line before `e` holding `"""`, or -1 when there is none |
| FileManager.ScanHeader | file_manager.py:282-293 | the scan finds the first `"""` line and the next one after it, with -1 for each that is missing |
| FileManager.RemoveHeader | file_manager.py:282-297 | the header step yields the line list with the first `"""` block cut |
| FileManager.RemoveFooter | file_manager.py:300-310 | the footer step yields the line list with the last `"""` block cut |
| FileManager.RemoveFileHeadersFooters | file_manager.py:277-319 | the result is the payload lines (both blocks cut, blank lines trimmed at both ends) joined by line breaks |
| FileManager.DropLeadingBlank | file_manager.py:313-314 | the first loop leaves a suffix whose first line is not blank and removes only blank lines |
| FileManager.DropTrailingBlank | file_manager.py:316-317 | the second loop leaves a prefix whose last line is not blank and removes only blank lines |
| FileManager.CutHeaderUnchanged | file_manager.py:286-297 | the header step changes nothing exactly when at most one line holds `"""` |
| FileManager.CutFooterUnchanged | file_manager.py:300-310 | the footer step changes nothing exactly when at most one line holds `"""` |
| FileManager.HeaderCutExact | file_manager.py:286-297 | the header step removes exactly the lines from the first `"""` line through the second, inclusive, and keeps the lines before and after |
| FileManager.FooterCutExact | file_manager.py:300-310 | the footer step removes exactly the lines from the second-to-last `"""` line through the last, inclusive, and keeps the lines before and after |
| FileManager.CutHeaderSubsequence | file_manager.py:286-297 | the header step only removes lines |
| FileManager.CutFooterSubsequence | file_manager.py:300-310 | the footer step only removes lines |
| FileManager.TrimSubsequence | file_manager.py:313-317 | trimming only removes lines |
| FileManager.PayloadSubsequence | file_manager.py:279-319 | the result's lines are an in-order subsequence of the content's lines: lines are removed, never altered or reordered |
| FileManager.PayloadEdgesNotBlank | file_manager.py:313-319 | the result never starts or ends with a whitespace-only line |
| FileManager.PayloadWithoutFraming | file_manager.py:286-311 | when at most one line holds `"""`, only leading and trailing blank lines are removed |
| FileManager.TrimPadding | file_manager.py:313-317 | blank lines around a block vanish under trimming |
| FileManager.TrimEmptyIffAllBlank | file_manager.py:313-317 | trimming leaves nothing exactly when every line is blank |
| FileManager.BlankIffLinesBlank | file_manager.py:48-49 | code is whitespace-only exactly when every one of its lines is |
| FileManager.HeaderSplit | file_manager.py:244-260 | the header text splits back into its twelve lines |
| FileManager.FooterSplit | file_manager.py:262-275 | the footer text splits back into its ten lines |
| FileManager.HeaderQuotes | file_manager.py:244-260 | only header lines 0 and 9 hold `"""`, and the last two header lines are empty |
| FileManager.FooterQuotes | file_manager.py:262-275 | only footer lines 2 and 8 hold `"""`, and footer lines 0, 1 and 9 are empty |
| FileManager.WrappedTripleQuote | file_manager.py:248-255 | a `"""` in a header line with the code type or the timestamp can only come from those values |
| FileManager.TitleTripleQuote | file_manager.py:248 | `title()` creates no `"""` |
| FileManager.FramingLayout | file_manager.py:244-275 | the header and footer have that layout |
| FileManager.FramedSplit | file_manager.py:57-65 | the saved content splits into the header's lines, the code's lines and the footer's lines |
| FileManager.FramedPayload | file_manager.py:277-319 | on lines laid out like a saved file, cutting both blocks and trimming leaves the trimmed code lines, whatever the code lines hold, `"""` included |
| FileManager.FramingRoundTrip | file_manager.py:244-319 | stripping the framing from `header + code + footer` gives the code's lines without leading and trailing whitespace-only lines; the code may hold `"""` lines, as the generated function, class and comment snippets do |
| FileManager.SavedCodeLoadsBack | file_manager.py:33-69 | `save_code` accepts exactly the code whose trimmed lines are non-empty, and `_remove_file_headers_footers` applied to the content it writes gives back those lines |

## Left out

- `main.py` is not part of this model: it is the interactive menu (input, printing, `KeyboardInterrupt`, `sys.exit`), and its shift checks repeat the cipher's.
- File-system work in `file_manager.py` is left out because it is I/O: creating the directory, `open`/`read`/`write`, `load_code` (lines 71-105), `list_files`, `delete_file`, `get_file_info`, `backup_file`, and path resolution. The model covers `_remove_file_headers_footers`, the step `load_code` applies to what it reads, but not the read itself.
- FileManager.SavedCodeLoadsBack covers only the removal step applied to the content `save_code` builds. It does not model the text-mode file I/O. Writing turns `'\n'` into `os.linesep`. Reading with universal newlines (file_manager.py:95) turns `"\r\n"` and a lone `"\r"` into `'\n'` before the removal runs. So for code holding `'\r'`, the lines the real `load_code` returns can differ from those the lemma states: `"a\r\nb"` reads back as the lines `a` and `b`, not `a\r` and `b`.
- FileManager.SaveCode takes the code type as a required argument. The default `code_type="generated"` (file_manager.py:33) is not modelled; a caller wanting it passes `"generated"`.
- FileManager.SaveCode returns the filename and the content to write instead of writing a file. It leaves out the directory join and the `except` at lines 68-69 that re-raises write failures.
- `datetime.now()` and `strftime` are replaced by timestamp string parameters.
- The float `percentage` of the most common character (encryption.py:150) is floating-point rounding and is left out. `MostCommon` keeps the character and the count.
- Two `except` branches are left out because they cannot be reached for the modelled inputs: the `"Error: …"` entry of `brute_force_decrypt` (encryption.py:108-109), since every shift 1..25 on a non-empty text succeeds, and the bare `except` of `validate_shift` (encryption.py:167-168).
- `validate_shift` takes an `int`, so `isinstance` always holds and Python's `bool`-is-`int` quirk does not arise.
- Unicode semantics of `lower`, `title`, `capitalize`, `strip`, `split`, `isdigit`, `isalpha` and the regex classes are modelled over ASCII. Python's whitespace below 128 is characters 9-13, 28-31 and 32.
- TextToCode.SplitIntoSentences splits at every mark and not at runs of marks. The empty pieces between adjacent marks are then dropped by the blank filter, so the result is the same as `re.split(r'[.!?]+', …)` followed by that filter.
- TextToCode.CreateIdentifier is not claimed to produce a valid Python identifier, as its docstring says. `IdentifierMayStartWithDigit` shows `"!123"` gives `"123"`, because the `func_` prefix is decided before the leading underscore is stripped.
- TextToCode.IdentifierIdempotent is stated only for results that do not start with a digit. For `"123"` a second call prefixes `func_`.
- Generated snippets are not claimed to be valid Python, because only `"` is escaped, not backslashes.
- TextToCode.ConvertText takes the template type as an `int`. A non-integer key is outside the model.
- The template table of `TextToCodeConverter` is modelled as the dispatch in `ConvertText`, not as a stored dictionary.
- Encryption.Encrypt and Encryption.Decrypt share the character loop `ShiftText`, with offsets `+shift` and `-shift`, instead of two copies of it.
- FileManager.FramingRoundTrip requires that the code type and the timestamp contain no `"""`, which would add a quote line to the header, and no line break. A line break there would split a header line into several lines. The `strftime` format never produces one.
- FileManager.SavedCodeLoadsBack carries the same conditions on the code type and the header timestamp as `FramingRoundTrip`.
