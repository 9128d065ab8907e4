/**
 * The `CaesarCipher` class: a shift cipher over a fixed, ordered character
 * set of 97 symbols, with brute-force decryption, a frequency analysis of a
 * ciphertext and a table of suggested shifts.
 *
 * The class keeps one field, `charset`, set once in `__init__` and never
 * changed, so the model has it as the constant `Charset` and the methods as
 * module-level methods.
 */
module Encryption {
  import opened Results
  import opened Text
  import opened Seqs

  // ---------------------------------------------------------------------------
  // Character sets of Python's `string` module

  /** The characters with codes `lo .. hi-1`, in order. */
  function CharRange(lo: nat, hi: nat): (r: string)
    requires lo <= hi <= 128
    ensures |r| == hi - lo
    ensures forall i :: 0 <= i < |r| ==> r[i] as int == lo + i
  {
    seq(hi - lo, i requires 0 <= i < hi - lo => (lo + i) as char)
  }

  const AsciiLowercase: string := CharRange('a' as nat, 'z' as nat + 1)
  const AsciiUppercase: string := CharRange('A' as nat, 'Z' as nat + 1)
  const AsciiLetters: string := AsciiLowercase + AsciiUppercase
  const Digits: string := CharRange('0' as nat, '9' as nat + 1)
  /** The 32 ASCII punctuation characters, in code order: `!` .. `/`, `:` .. `@`, `[` .. backquote, `{` .. `~`. */
  const Punctuation: string :=
    CharRange('!' as nat, '/' as nat + 1) + CharRange(':' as nat, '@' as nat + 1)
    + CharRange('[' as nat, '`' as nat + 1) + CharRange('{' as nat, '~' as nat + 1)
  /** `string.whitespace`: space, tab, line feed, carriage return, vertical tab, form feed. */
  const Whitespace: string := " \t\n\r\U{B}\U{C}"
  /** `string.printable`. */
  const Printable: string := Digits + AsciiLetters + Punctuation + Whitespace

  /**
   * The symbol at position `i` of the cipher's alphabet
   * `ascii_letters + digits + punctuation + ' \n\t'`.
   */
  function CharAt(i: nat): char
    requires i < 97
  {
    if i < 26 then ('a' as int + i) as char
    else if i < 52 then ('A' as int + i - 26) as char
    else if i < 62 then ('0' as int + i - 52) as char
    else if i < 77 then ('!' as int + i - 62) as char
    else if i < 84 then (':' as int + i - 77) as char
    else if i < 90 then ('[' as int + i - 84) as char
    else if i < 94 then ('{' as int + i - 90) as char
    else if i == 94 then ' '
    else if i == 95 then '\n'
    else '\t'
  }

  /** The symbols `CharAt(0) .. CharAt(96)`, in order. */
  function AlphabetSymbols(): (r: string)
    ensures |r| == 97
    ensures forall i :: 0 <= i < 97 ==> r[i] == CharAt(i)
  {
    seq(97, i requires 0 <= i < 97 => CharAt(i))
  }

  /** The cipher's alphabet, listed symbol by symbol (see `CharsetIsPythonAlphabet`). */
  const Charset: string := AlphabetSymbols()

  /** `Charset` is the concatenation `__init__` builds. */
  lemma CharsetIsPythonAlphabet()
    ensures Charset == AsciiLetters + Digits + Punctuation + " \n\t"
  {
    var p := AsciiLetters + Digits + Punctuation + " \n\t";
    assert |p| == 97;
    forall i | 0 <= i < 97
      ensures Charset[i] == p[i]
    {
      if i < 26 { assert p[i] == AsciiLowercase[i]; }
      else if i < 52 { assert p[i] == AsciiUppercase[i - 26]; }
      else if i < 62 { assert p[i] == Digits[i - 52]; }
      else if i < 94 { assert p[i] == Punctuation[i - 62]; }
      else { assert p[i] == " \n\t"[i - 94]; }
    }
  }

  /** The character sets spelled out agree with the literals of Python's `string` module. */
  lemma CharacterSetsSpelledOut()
    ensures AsciiLowercase == "abcdefghijklmnopqrstuvwxyz"
    ensures AsciiUppercase == "ABCDEFGHIJKLMNOPQRSTUVWXYZ"
    ensures Digits == "0123456789"
    ensures Punctuation == "!\"#$%&'()*+,-./" + ":;<=>?@" + "[\\]^_`" + "{|}~"
  {
  }

  /**
   * The position of `c` in `Charset`, computed from its code; 97 for a
   * character outside the set.
   */
  function Rank(c: char): (p: nat)
    ensures p <= 97
  {
    var n := c as int;
    if 'a' <= c <= 'z' then n - 'a' as int
    else if 'A' <= c <= 'Z' then 26 + n - 'A' as int
    else if '0' <= c <= '9' then 52 + n - '0' as int
    else if '!' <= c <= '/' then 62 + n - '!' as int
    else if ':' <= c <= '@' then 77 + n - ':' as int
    else if '[' <= c <= '`' then 84 + n - '[' as int
    else if '{' <= c <= '~' then 90 + n - '{' as int
    else if c == ' ' then 94
    else if c == '\n' then 95
    else if c == '\t' then 96
    else 97
  }

  /** `Rank` and `CharAt` are inverse: the alphabet is exactly the characters of rank below 97. */
  lemma RankCharAt()
    ensures forall i :: 0 <= i < 97 ==> Rank(CharAt(i)) == i
    ensures forall c :: Rank(c) < 97 ==> CharAt(Rank(c)) == c
    ensures forall c :: c in Charset <==> Rank(c) < 97
  {
    forall c | c in Charset
      ensures Rank(c) < 97
    {
      var i :| 0 <= i < 97 && Charset[i] == c;
      assert CharAt(i) == c;
    }
    forall c | Rank(c) < 97
      ensures c in Charset
    {
      assert Charset[Rank(c)] == c;
    }
  }

  /** The alphabet has 97 pairwise-distinct symbols. */
  lemma CharsetDistinct()
    ensures |Charset| == 97
    ensures NoDuplicates(Charset)
  {
    RankCharAt();
    forall i, j | 0 <= i < j < |Charset|
      ensures Charset[i] != Charset[j]
    {
      assert Rank(Charset[i]) == i && Rank(Charset[j]) == j;
    }
  }

  /** `charset.index(c)` is the rank of `c`. */
  lemma IndexIsRank(c: char)
    requires c in Charset
    ensures IndexOf(Charset, c) == Rank(c)
  {
    RankCharAt();
    var i := IndexOf(Charset, c);
    assert Rank(Charset[i]) == i;
  }

  /** Every symbol of the alphabet is in `string.printable`. */
  lemma CharsetPrintable()
    ensures forall c :: c in Charset ==> c in Printable
  {
    CharsetIsPythonAlphabet();
    forall c | c in Charset
      ensures c in Printable
    {
      assert c in AsciiLetters || c in Digits || c in Punctuation || c in " \n\t";
    }
  }

  // ---------------------------------------------------------------------------
  // validate_shift, encrypt, decrypt

  /**
   * `validate_shift(shift)` for an integer argument. A valid shift lies
   * strictly between 0 and the size of the alphabet, so it is never a
   * whole number of turns.
   */
  predicate ValidateShift(shift: int)
    ensures ValidateShift(shift) ==> 0 < shift < |Charset|
  {
    1 <= shift <= 25
  }

  /**
   * One character under a shift by `offset` positions over `alphabet`: the
   * symbol at index `p` becomes the one at `(p + offset) mod |alphabet|`; any
   * other character is kept. `encrypt` and `decrypt` use it with `Charset`.
   */
  function ShiftChar(alphabet: string, c: char, offset: int): char
  {
    if c in alphabet then alphabet[(IndexOf(alphabet, c) + offset) % |alphabet|] else c
  }

  /** The text with every character shifted: `encrypt` uses `+shift`, `decrypt` uses `-shift`. */
  function Shift(alphabet: string, text: string, offset: int): (r: string)
    ensures |r| == |text|
  {
    seq(|text|, i requires 0 <= i < |text| => ShiftChar(alphabet, text[i], offset))
  }

  /** Shifting one more character appends its image. */
  lemma ShiftSnoc(alphabet: string, s: string, c: char, offset: int)
    ensures Shift(alphabet, s + [c], offset) == Shift(alphabet, s, offset) + [ShiftChar(alphabet, c, offset)]
  {
    var t := s + [c];
    assert forall i :: 0 <= i < |s| ==> t[i] == s[i];
  }

  /**
   * The character loop of `encrypt` (with `offset = shift`) and of `decrypt`
   * (with `offset = -shift`): a symbol of the alphabet is replaced by the one
   * `offset` places further on, wrapping around; any other character is kept.
   */
  method ShiftText(alphabet: string, text: string, offset: int) returns (chars: string)
    requires alphabet != []
    ensures chars == Shift(alphabet, text, offset)
  {
    chars := [];
    for i := 0 to |text|
      invariant chars == Shift(alphabet, text[..i], offset)
    {
      var c := text[i];
      ShiftSnoc(alphabet, text[..i], c, offset);
      assert text[..i + 1] == text[..i] + [c];
      if c in alphabet {
        var oldIndex := IndexOf(alphabet, c);
        var newIndex := (oldIndex + offset) % |alphabet|;
        chars := chars + [alphabet[newIndex]];
      } else {
        chars := chars + [c];
      }
    }
    assert text[..|text|] == text;
  }

  /** `encrypt(text, shift)`. */
  method Encrypt(text: string, shift: int) returns (r: Result<string>)
    ensures !ValidateShift(shift) ==> r == ValueError("Shift must be between 1 and 25")
    ensures ValidateShift(shift) && text == [] ==> r == ValueError("Text cannot be empty")
    ensures ValidateShift(shift) && text != [] ==> r == Ok(Shift(Charset, text, shift))
  {
    if !(1 <= shift <= 25) {
      return ValueError("Shift must be between 1 and 25");
    }
    if text == [] {
      return ValueError("Text cannot be empty");
    }
    var encryptedChars := ShiftText(Charset, text, shift);
    return Ok(encryptedChars);
  }

  /** `decrypt(encrypted_text, shift)`. */
  method Decrypt(encryptedText: string, shift: int) returns (r: Result<string>)
    ensures !ValidateShift(shift) ==> r == ValueError("Shift must be between 1 and 25")
    ensures ValidateShift(shift) && encryptedText == [] ==> r == ValueError("Encrypted text cannot be empty")
    ensures ValidateShift(shift) && encryptedText != [] ==> r == Ok(Shift(Charset, encryptedText, -shift))
  {
    if !(1 <= shift <= 25) {
      return ValueError("Shift must be between 1 and 25");
    }
    if encryptedText == [] {
      return ValueError("Encrypted text cannot be empty");
    }
    var decryptedChars := ShiftText(Charset, encryptedText, -shift);
    return Ok(decryptedChars);
  }

  // ---------------------------------------------------------------------------
  // Properties of the shift, over any alphabet without repeated symbols

  /** A symbol at index `p` is shifted to the symbol at index `(p + offset) mod |alphabet|`. */
  lemma ShiftCharIndex(alphabet: string, c: char, offset: int)
    requires NoDuplicates(alphabet) && c in alphabet
    ensures ShiftChar(alphabet, c, offset) in alphabet
    ensures IndexOf(alphabet, ShiftChar(alphabet, c, offset)) == (IndexOf(alphabet, c) + offset) % |alphabet|
  {
    IndexOfDistinct(alphabet, (IndexOf(alphabet, c) + offset) % |alphabet|);
  }

  /**
   * The shifted text has the length of the text; a character outside the
   * alphabet is kept at its position; a symbol at index `p` becomes the
   * symbol at index `(p + offset) mod |alphabet|`, so symbols stay symbols.
   */
  lemma ShiftPositions(alphabet: string, text: string, offset: int, i: nat)
    requires NoDuplicates(alphabet) && i < |text|
    ensures |Shift(alphabet, text, offset)| == |text|
    ensures text[i] !in alphabet ==> Shift(alphabet, text, offset)[i] == text[i]
    ensures text[i] in alphabet ==>
      Shift(alphabet, text, offset)[i] in alphabet &&
      IndexOf(alphabet, Shift(alphabet, text, offset)[i]) == (IndexOf(alphabet, text[i]) + offset) % |alphabet|
  {
    if text[i] in alphabet {
      ShiftCharIndex(alphabet, text[i], offset);
    }
  }

  /** Shifting by `k` and then by `-k` gives every character back. */
  lemma ShiftCharInverse(alphabet: string, c: char, k: int)
    requires NoDuplicates(alphabet)
    ensures ShiftChar(alphabet, ShiftChar(alphabet, c, k), -k) == c
  {
    if c in alphabet {
      var n := |alphabet|;
      var p := IndexOf(alphabet, c);
      var q := (p + k) % n;
      ShiftCharIndex(alphabet, c, k);
      ModInverse(p, k, n);
      assert ShiftChar(alphabet, alphabet[q], -k) == alphabet[(q - k) % n];
    }
  }

  lemma ModInverse(p: int, k: int, n: int)
    requires 0 <= p < n
    ensures ((p + k) % n - k) % n == p
  {
    var d := (p + k) / n;
    assert (p + k) % n - k == n * (-d) + p;
    ModUnique((p + k) % n - k, n, -d, p);
  }

  /** The remainder of `n * d + p` is `p` when `0 <= p < n`. */
  lemma ModUnique(x: int, n: int, d: int, p: int)
    requires 0 <= p < n && x == n * d + p
    ensures x % n == p
  {
    var q, r := x / n, x % n;
    assert n * (q - d) == p - r;
    MulAtLeast(n, q - d);
    MulAtLeast(n, d - q);
  }

  lemma MulAtLeast(n: int, m: int)
    ensures n > 0 && m >= 1 ==> n * m >= n
  {
  }

  /** Shifting back undoes a shift, and shifting forward undoes a shift back, for every text and offset. */
  lemma RoundTrip(alphabet: string, text: string, shift: int)
    requires NoDuplicates(alphabet)
    ensures Shift(alphabet, Shift(alphabet, text, shift), -shift) == text
    ensures Shift(alphabet, Shift(alphabet, text, -shift), shift) == text
  {
    forall i | 0 <= i < |text|
      ensures Shift(alphabet, Shift(alphabet, text, shift), -shift)[i] == text[i]
      ensures Shift(alphabet, Shift(alphabet, text, -shift), shift)[i] == text[i]
    {
      ShiftCharInverse(alphabet, text[i], shift);
      ShiftCharInverse(alphabet, text[i], -shift);
      assert - -shift == shift;
    }
  }

  /** A shift by less than the alphabet's size, either way, moves every symbol. */
  lemma ShiftMovesEverySymbol(alphabet: string, c: char, shift: int)
    requires NoDuplicates(alphabet) && c in alphabet
    requires 0 < shift < |alphabet|
    ensures ShiftChar(alphabet, c, shift) != c
    ensures ShiftChar(alphabet, c, -shift) != c
  {
    ShiftMovesForward(alphabet, c, shift);
    ShiftMovesBackward(alphabet, c, shift);
  }

  lemma ShiftMovesForward(alphabet: string, c: char, shift: int)
    requires NoDuplicates(alphabet) && c in alphabet
    requires 0 < shift < |alphabet|
    ensures ShiftChar(alphabet, c, shift) != c
  {
    var n := |alphabet|;
    var p := IndexOf(alphabet, c);
    ShiftCharIndex(alphabet, c, shift);
    if p + shift < n {
      ModUnique(p + shift, n, 0, p + shift);
    } else {
      ModUnique(p + shift, n, 1, p + shift - n);
    }
  }

  lemma ShiftMovesBackward(alphabet: string, c: char, shift: int)
    requires NoDuplicates(alphabet) && c in alphabet
    requires 0 < shift < |alphabet|
    ensures ShiftChar(alphabet, c, -shift) != c
  {
    var n := |alphabet|;
    var p := IndexOf(alphabet, c);
    ShiftCharIndex(alphabet, c, -shift);
    if p - shift >= 0 {
      ModUnique(p - shift, n, 0, p - shift);
    } else {
      ModUnique(p - shift, n, -1, p - shift + n);
    }
  }

  // ---------------------------------------------------------------------------
  // The cipher's promises, on its own alphabet

  /** `decrypt` undoes `encrypt` and `encrypt` undoes `decrypt`, for every text and shift. */
  lemma CipherRoundTrip(text: string, shift: int)
    ensures Shift(Charset, Shift(Charset, text, shift), -shift) == text
    ensures Shift(Charset, Shift(Charset, text, -shift), shift) == text
  {
    CharsetDistinct();
    RoundTrip(Charset, text, shift);
  }

  /**
   * On the cipher's own alphabet: a character outside `Charset` is kept in
   * place, and a symbol of rank `p` becomes the symbol of rank `(p + offset) mod 97`.
   */
  lemma CipherPositions(text: string, offset: int, i: nat)
    requires i < |text|
    ensures text[i] !in Charset ==> Shift(Charset, text, offset)[i] == text[i]
    ensures text[i] in Charset ==>
      && Shift(Charset, text, offset)[i] in Charset
      && Rank(Shift(Charset, text, offset)[i]) == (Rank(text[i]) + offset) % 97
  {
    CharsetDistinct();
    ShiftPositions(Charset, text, offset, i);
    if text[i] in Charset {
      IndexIsRank(text[i]);
      IndexIsRank(Shift(Charset, text, offset)[i]);
    }
  }

  /** A valid shift moves every symbol of `Charset`: neither direction is the identity on it. */
  lemma ValidShiftMovesEveryCharacter(c: char, shift: int)
    requires ValidateShift(shift) && c in Charset
    ensures ShiftChar(Charset, c, shift) != c
    ensures ShiftChar(Charset, c, -shift) != c
  {
    CharsetDistinct();
    ShiftMovesEverySymbol(Charset, c, shift);
  }

  // ---------------------------------------------------------------------------
  // brute_force_decrypt

  /** `brute_force_decrypt(encrypted_text)`: the candidate plaintext for every shift 1..25. */
  method BruteForceDecrypt(encryptedText: string) returns (r: Result<map<int, string>>)
    ensures encryptedText == [] ==> r == ValueError("Encrypted text cannot be empty")
    ensures encryptedText != [] ==> r.Ok?
    ensures r.Ok? ==> forall s :: s in r.value <==> 1 <= s <= 25
    ensures r.Ok? ==> forall s :: 1 <= s <= 25 ==> r.value[s] == Shift(Charset, encryptedText, -s)
    ensures r.Ok? ==> forall t, s :: ValidateShift(s) && encryptedText == Shift(Charset, t, s) ==> r.value[s] == t
  {
    if encryptedText == [] {
      return ValueError("Encrypted text cannot be empty");
    }
    var results: map<int, string> := map[];
    for shift := 1 to 26
      invariant forall s :: s in results <==> 1 <= s < shift
      invariant forall s :: 1 <= s < shift ==> results[s] == Shift(Charset, encryptedText, -s)
    {
      var decrypted := Decrypt(encryptedText, shift);
      results := results[shift := decrypted.value];
    }
    forall t, s | ValidateShift(s) && encryptedText == Shift(Charset, t, s)
      ensures results[s] == t
    {
      CipherRoundTrip(t, s);
    }
    return Ok(results);
  }

  // ---------------------------------------------------------------------------
  // analyze_encrypted_text

  /** The `most_common_char` entry; the float `percentage` is not modelled. */
  datatype MostCommon = MostCommon(ch: char, count: nat)

  /**
   * The dictionary `analyze_encrypted_text` returns: the error entry for an
   * empty text, or the statistics. `frequencyOrder` is the key order of
   * `char_frequency`.
   */
  datatype Analysis =
    | EmptyTextError(error: string)
    | Report(length: nat, uniqueChars: nat, charFrequency: map<char, nat>,
             frequencyOrder: seq<char>, mostCommonChar: Option<MostCommon>,
             printableChars: nat, nonPrintableChars: nat)

  /** The number of characters of `s` that are in `string.printable`. */
  function CountPrintable(s: string): (n: nat)
    ensures n <= |s|
    ensures n == |s| <==> forall i :: 0 <= i < |s| ==> s[i] in Printable
  {
    if s == [] then 0
    else CountPrintable(s[..|s| - 1]) + (if s[|s| - 1] in Printable then 1 else 0)
  }

  /** The sum of `freq[c]` over the keys `keys`. */
  function SumFrequencies(keys: seq<char>, freq: map<char, nat>): nat
    requires forall c :: c in keys ==> c in freq
  {
    if keys == [] then 0
    else SumFrequencies(keys[..|keys| - 1], freq) + freq[keys[|keys| - 1]]
  }

  /** Changing the count of a character that is not a key leaves the sum alone. */
  lemma {:induction false} SumFrequenciesOther(keys: seq<char>, freq: map<char, nat>, c: char, v: nat)
    requires forall x :: x in keys ==> x in freq
    requires c !in keys
    ensures SumFrequencies(keys, freq[c := v]) == SumFrequencies(keys, freq)
  {
    if keys != [] {
      SumFrequenciesOther(keys[..|keys| - 1], freq, c, v);
    }
  }

  /** Incrementing the count of a key that occurs once increments the sum. */
  lemma {:induction false} SumFrequenciesBump(keys: seq<char>, freq: map<char, nat>, c: char)
    requires forall x :: x in keys ==> x in freq
    requires NoDuplicates(keys) && c in keys
    ensures SumFrequencies(keys, freq[c := freq[c] + 1]) == SumFrequencies(keys, freq) + 1
  {
    var p := keys[..|keys| - 1];
    var last := keys[|keys| - 1];
    if last == c {
      assert c !in p;
      SumFrequenciesOther(p, freq, c, freq[c] + 1);
    } else {
      assert c in p;
      SumFrequenciesBump(p, freq, c);
    }
  }

  /** `analyze_encrypted_text(encrypted_text)`. */
  method AnalyzeEncryptedText(text: string) returns (a: Analysis)
    ensures text == [] <==> a == EmptyTextError("Empty text provided")
    ensures a.Report? ==>
      && a.length == |text|
      && a.uniqueChars == |a.charFrequency.Keys| == |a.frequencyOrder|
      && a.frequencyOrder == FirstOccurrences(text)
      && (forall c :: c in a.charFrequency <==> c in text)
      && (forall c :: c in a.charFrequency ==> a.charFrequency[c] == multiset(text)[c])
      && SumFrequencies(a.frequencyOrder, a.charFrequency) == a.length
      && a.printableChars == CountPrintable(text)
      && a.printableChars + a.nonPrintableChars == a.length
    ensures a.Report? ==> a.mostCommonChar.Some?
    ensures a.Report? && a.mostCommonChar.Some? ==>
      var m := a.mostCommonChar.value;
      && m.ch in a.charFrequency && a.charFrequency[m.ch] == m.count
      && (forall c :: c in a.charFrequency ==> a.charFrequency[c] <= m.count)
      && (forall c :: c in a.charFrequency && a.charFrequency[c] == m.count ==>
            IndexOf(text, m.ch) <= IndexOf(text, c))
  {
    if text == [] {
      return EmptyTextError("Empty text provided");
    }
    var freq, order, printable, nonPrintable := CountCharacters(text);
    var unique := |set c | c in text|;
    DistinctCount(text);
    assert freq.Keys == set c | c in text;

    var best, bestCount := MaxByCount(order, freq);
    forall c | c in freq && freq[c] == bestCount
      ensures IndexOf(text, best) <= IndexOf(text, c)
    {
      FirstOccurrencesIndex(text, best, c);
    }
    forall c | c in freq
      ensures freq[c] <= bestCount
    {
      assert order[IndexOf(order, c)] == c;
    }
    a := Report(|text|, unique, freq, order, Some(MostCommon(best, bestCount)), printable, nonPrintable);
  }

  /**
   * The counting loop of `analyze_encrypted_text`: the frequency of every
   * character (with the dictionary's key order) and the printable and
   * non-printable counts.
   */
  method CountCharacters(text: string) returns (freq: map<char, nat>, order: seq<char>, printable: nat, nonPrintable: nat)
    ensures CountsOf(text, freq, order, printable, nonPrintable)
  {
    freq, order, printable, nonPrintable := map[], [], 0, 0;
    for i := 0 to |text|
      invariant CountsOf(text[..i], freq, order, printable, nonPrintable)
    {
      freq, order, printable, nonPrintable := CountCharacter(text, i, freq, order, printable, nonPrintable);
    }
    assert text[..|text|] == text;
  }

  /** The quantities `CountCharacters` keeps, for the characters `seen` so far. */
  predicate CountsOf(seen: string, freq: map<char, nat>, order: seq<char>, printable: nat, nonPrintable: nat)
  {
    FrequenciesOf(seen, freq, order) && printable == CountPrintable(seen) && printable + nonPrintable == |seen|
  }

  /** `freq` counts every character of `seen`, and `order` lists its keys in insertion order. */
  predicate FrequenciesOf(seen: string, freq: map<char, nat>, order: seq<char>)
  {
    && order == FirstOccurrences(seen)
    && (forall c :: c in freq <==> c in seen)
    && (forall c :: c in freq ==> freq[c] == multiset(seen)[c])
    && SumFrequencies(order, freq) == |seen|
  }

  /** One pass of the counting loop of `analyze_encrypted_text`, for the character `c`. */
  method CountCharacter(text: string, i: nat, freq0: map<char, nat>, order0: seq<char>, printable0: nat, nonPrintable0: nat)
    returns (freq: map<char, nat>, order: seq<char>, printable: nat, nonPrintable: nat)
    requires i < |text| && CountsOf(text[..i], freq0, order0, printable0, nonPrintable0)
    ensures CountsOf(text[..i + 1], freq, order, printable, nonPrintable)
  {
    var seen, c := text[..i], text[i];
    assert text[..i + 1] == seen + [c];
    freq, order, printable, nonPrintable := freq0, order0, printable0, nonPrintable0;
    if c in freq {
      CountAgain(seen, c, freq, order);
      freq := freq[c := freq[c] + 1];
    } else {
      CountFirst(seen, c, freq, order);
      freq := freq[c := 1];
      order := order + [c];
    }
    CountPrintableSnoc(seen, c);
    if c in Printable {
      printable := printable + 1;
    } else {
      nonPrintable := nonPrintable + 1;
    }
  }

  /** A character already counted: its count goes up by one, the key order stays. */
  lemma CountAgain(seen: string, c: char, freq: map<char, nat>, order: seq<char>)
    requires FrequenciesOf(seen, freq, order) && c in freq
    ensures FrequenciesOf(seen + [c], freq[c := freq[c] + 1], order)
  {
    FirstOccurrencesSnoc(seen, c);
    KeysSnoc(seen, c, freq, freq[c] + 1);
    CountsSnoc(seen, c, freq, freq[c] + 1);
    SumFrequenciesBump(order, freq, c);
  }

  /** A character seen for the first time: it is counted once and becomes the last key. */
  lemma CountFirst(seen: string, c: char, freq: map<char, nat>, order: seq<char>)
    requires FrequenciesOf(seen, freq, order) && c !in freq
    ensures FrequenciesOf(seen + [c], freq[c := 1], order + [c])
  {
    FirstOccurrencesSnoc(seen, c);
    KeysSnoc(seen, c, freq, 1);
    CountsSnoc(seen, c, freq, 1);
    SumFrequenciesAppend(order, freq, c);
  }

  /** Setting the entry of `c` makes the keys the characters of `seen + [c]`. */
  lemma KeysSnoc(seen: string, c: char, freq: map<char, nat>, v: nat)
    requires forall x :: x in freq <==> x in seen
    ensures forall x :: x in freq[c := v] <==> x in seen + [c]
  {
    CountingStep(seen, c);
  }

  /** Setting the entry of `c` to its new multiplicity keeps every count right. */
  lemma CountsSnoc(seen: string, c: char, freq: map<char, nat>, v: nat)
    requires forall x :: x in freq ==> freq[x] == multiset(seen)[x]
    requires v == multiset(seen)[c] + 1
    ensures forall x :: x in freq[c := v] ==> freq[c := v][x] == multiset(seen + [c])[x]
  {
    CountingStep(seen, c);
    var f := freq[c := v];
    forall x | x in f
      ensures f[x] == multiset(seen + [c])[x]
    {
      if x != c { assert f[x] == freq[x]; }
    }
  }

  /** A new key counted once adds one to the total. */
  lemma SumFrequenciesAppend(keys: seq<char>, freq: map<char, nat>, c: char)
    requires forall x :: x in keys ==> x in freq
    requires c !in keys
    ensures SumFrequencies(keys + [c], freq[c := 1]) == SumFrequencies(keys, freq) + 1
  {
    SumFrequenciesOther(keys, freq, c, 1);
    SumFrequenciesSnoc(keys, freq[c := 1], c);
  }

  lemma SumFrequenciesSnoc(keys: seq<char>, freq: map<char, nat>, c: char)
    requires forall x :: x in keys ==> x in freq
    requires c in freq
    ensures SumFrequencies(keys + [c], freq) == SumFrequencies(keys, freq) + freq[c]
  {
    assert (keys + [c])[..|keys|] == keys;
  }

  lemma CountPrintableSnoc(seen: string, c: char)
    ensures CountPrintable(seen + [c]) == CountPrintable(seen) + if c in Printable then 1 else 0
  {
    assert (seen + [c])[..|seen|] == seen;
  }

  /** What one more character changes in the quantities `CountCharacters` keeps. */
  lemma CountingStep(seen: string, c: char)
    ensures forall x :: x in seen + [c] <==> x in seen || x == c
    ensures multiset(seen + [c]) == multiset(seen) + multiset{c}
  {
    assert (seen + [c])[..|seen|] == seen;
  }

  /** A character already seen leaves the key order as it is; a new one is appended. */
  lemma FirstOccurrencesSnoc(seen: string, c: char)
    ensures c in seen ==> FirstOccurrences(seen + [c]) == FirstOccurrences(seen)
    ensures c !in seen ==> FirstOccurrences(seen + [c]) == FirstOccurrences(seen) + [c]
  {
    assert (seen + [c])[..|seen|] == seen;
  }

  /**
   * `max(d.items(), key=lambda x: x[1])` over a dictionary with key order
   * `keys`: the largest count, and the first key (in key order) that has it.
   */
  method MaxByCount(keys: seq<char>, freq: map<char, nat>) returns (best: char, bestCount: nat)
    requires keys != [] && forall c :: c in keys ==> c in freq
    ensures best in keys && bestCount == freq[best]
    ensures forall j :: 0 <= j < |keys| ==> freq[keys[j]] <= bestCount
    ensures forall j :: 0 <= j < IndexOf(keys, best) ==> freq[keys[j]] < bestCount
  {
    best := keys[0];
    bestCount := freq[best];
    ghost var bi := 0;
    for k := 1 to |keys|
      invariant bi < k && keys[bi] == best && bestCount == freq[best]
      invariant forall j :: 0 <= j < k ==> freq[keys[j]] <= bestCount
      invariant forall j :: 0 <= j < bi ==> freq[keys[j]] < bestCount
    {
      if freq[keys[k]] > bestCount {
        best, bestCount, bi := keys[k], freq[keys[k]], k;
      }
    }
  }

  /** A text made only of alphabet symbols, such as any ciphertext of one, is all printable. */
  lemma {:induction false} AlphabetTextIsPrintable(s: string)
    requires forall i :: 0 <= i < |s| ==> s[i] in Charset
    ensures CountPrintable(s) == |s|
  {
    if s != [] {
      CharsetPrintable();
      AlphabetTextIsPrintable(s[..|s| - 1]);
    }
  }

  // ---------------------------------------------------------------------------
  // generate_shift_suggestions

  /** The pattern table: a text fragment and the shift it suggests. */
  const CommonPatterns: seq<(string, int)> :=
    [("def ", 3), ("class ", 5), ("print(", 7), ("import ", 11), ("if __name__", 13)]

  const DefaultSuggestions: seq<int> := [1, 3, 5, 13]
  const StandardShifts: seq<int> := [1, 3, 5, 7, 13, 17, 21, 25]

  /** Pattern `k` of the table occurs in the sample, ignoring case. */
  predicate PatternMatches(sample: string, k: nat)
    requires k < |CommonPatterns|
  {
    Contains(Lower(sample), Lower(CommonPatterns[k].0))
  }

  /** The shifts whose pattern occurs in the sample. */
  function MatchedShifts(sample: string): set<int>
  {
    set k | 0 <= k < |CommonPatterns| && PatternMatches(sample, k) :: CommonPatterns[k].1
  }

  predicate StrictlyAscending(s: seq<int>)
  {
    forall i, j :: 0 <= i < j < |s| ==> s[i] < s[j]
  }

  /** Inserts `x` into a strictly ascending list unless it is already there. */
  function InsertSorted(s: seq<int>, x: int): (r: seq<int>)
    requires StrictlyAscending(s)
    ensures StrictlyAscending(r)
    ensures forall y :: y in r <==> y in s || y == x
    ensures |r| <= |s| + 1
  {
    if s == [] then [x]
    else if x < s[0] then
      ConsAscending(x, s);
      [x] + s
    else if x == s[0] then s
    else
      var rest := InsertSorted(s[1..], x);
      assert forall y :: y in s[1..] ==> s[0] < y;
      assert forall i :: 0 <= i < |rest| ==> rest[i] in rest;
      ConsAscending(s[0], rest);
      [s[0]] + rest
  }

  /** A head below every element of an ascending tail keeps the list ascending. */
  lemma ConsAscending(h: int, t: seq<int>)
    requires StrictlyAscending(t)
    requires forall i :: 0 <= i < |t| ==> h < t[i]
    ensures StrictlyAscending([h] + t)
  {
    var r := [h] + t;
    forall i, j | 0 <= i < j < |r|
      ensures r[i] < r[j]
    {
      assert r[j] == t[j - 1];
      if i > 0 { assert r[i] == t[i - 1]; }
    }
  }

  /** `sorted(list(set(s)))`. */
  function SortedDistinct(s: seq<int>): (r: seq<int>)
    ensures StrictlyAscending(r)
    ensures forall y :: y in r <==> y in s
    ensures |r| <= |s|
  {
    if s == [] then [] else InsertSorted(SortedDistinct(s[..|s| - 1]), s[|s| - 1])
  }

  /** Inserting an element larger than every element appends it. */
  lemma {:induction false} InsertSortedLargest(s: seq<int>, x: int)
    requires StrictlyAscending(s)
    requires forall y :: y in s ==> y < x
    ensures InsertSorted(s, x) == s + [x]
  {
    if s != [] {
      assert s[0] in s;
      assert forall y :: y in s[1..] ==> y in s;
      InsertSortedLargest(s[1..], x);
      assert [s[0]] + (s[1..] + [x]) == s + [x];
    }
  }

  /** A list that is already strictly ascending is its own `sorted(set(...))`. */
  lemma {:induction false} SortedDistinctOfAscending(s: seq<int>)
    requires StrictlyAscending(s)
    ensures SortedDistinct(s) == s
  {
    if s != [] {
      var p := s[..|s| - 1];
      SortedDistinctOfAscending(p);
      InsertSortedLargest(p, s[|s| - 1]);
      assert p + [s[|s| - 1]] == s;
    }
  }

  /** Lists with the same elements are both empty or both non-empty. */
  lemma SameElementsEmpty(a: seq<int>, b: seq<int>)
    requires forall y :: y in a <==> y in b
    ensures a == [] <==> b == []
  {
    if a != [] {
      var x := a[0];
      assert x in a;
      assert x in b;
    }
    if b != [] {
      var x := b[0];
      assert x in b;
      assert x in a;
    }
  }

  /** The head of a strictly ascending list is its least element. */
  lemma AscendingHead(a: seq<int>)
    requires StrictlyAscending(a) && a != []
    ensures forall y :: y in a ==> a[0] <= y
  {
  }

  /** Two strictly ascending lists with the same elements are equal. */
  lemma {:induction false} AscendingUnique(a: seq<int>, b: seq<int>)
    requires StrictlyAscending(a) && StrictlyAscending(b)
    requires forall y :: y in a <==> y in b
    ensures a == b
    decreases |a|
  {
    SameElementsEmpty(a, b);
    if a != [] {
      AscendingHead(a);
      AscendingHead(b);
      assert a[0] in b && b[0] in a;
      assert a[0] == b[0];
      forall y
        ensures y in a[1..] <==> y in b[1..]
      {
        if y in a[1..] { assert y in a && y != a[0]; }
        if y in b[1..] { assert y in b && y != b[0]; }
      }
      AscendingUnique(a[1..], b[1..]);
      assert a == [a[0]] + a[1..] && b == [b[0]] + b[1..];
    }
  }

  /** The pattern loop of `generate_shift_suggestions`: the shift of every pattern found in the sample, in table order. */
  method MatchPatterns(sample: string) returns (suggestions: seq<int>)
    ensures |suggestions| <= |CommonPatterns|
    ensures forall x :: x in suggestions <==> x in MatchedShifts(sample)
  {
    suggestions := [];
    for k := 0 to |CommonPatterns|
      invariant |suggestions| <= k
      invariant forall x :: x in suggestions <==>
        exists j :: 0 <= j < k && PatternMatches(sample, j) && CommonPatterns[j].1 == x
    {
      var (pattern, suggestedShift) := CommonPatterns[k];
      if Contains(Lower(sample), Lower(pattern)) {
        suggestions := suggestions + [suggestedShift];
      }
    }
  }

  /** `generate_shift_suggestions(text_sample)`. */
  method GenerateShiftSuggestions(sample: string) returns (r: seq<int>)
    ensures sample == [] ==> r == DefaultSuggestions
    ensures sample != [] ==> StrictlyAscending(r) && |r| <= 5
    ensures sample != [] && MatchedShifts(sample) == {} ==> r == [1, 3, 5, 7, 13]
    ensures sample != [] && MatchedShifts(sample) != {} ==> forall x :: x in r <==> x in MatchedShifts(sample)
  {
    if sample == [] {
      return DefaultSuggestions;
    }
    var suggestions := MatchPatterns(sample);
    if suggestions != [] {
      assert suggestions[0] in suggestions;
    }
    if suggestions == [] {
      suggestions := StandardShifts;
    }
    var sorted := SortedDistinct(suggestions);
    r := sorted[..Min(5, |sorted|)];
    if MatchedShifts(sample) == {} {
      assert suggestions == StandardShifts;
      SortedDistinctOfAscending(StandardShifts);
    } else {
      assert r == sorted;
    }
  }
}
