/** The alphabet and the tolerance for separators and letter case around the Base32 digits. */
module Base32Text {
  import opened Prelude
  import opened Bits
  import opened Base32

  /** Width of the integers the code shifts. */
  const WORD: nat := 32

  const ALPHABET := "ABCDEFGHIJKLMNOPQRSTUVWXYZ234567"

  /** The character of a digit below 32: A to Z, then 2 to 7. */
  function Letter(digit: int): char {
    if 0 <= digit < 26 then ('A' as int + digit) as char
    else if 26 <= digit < 32 then ('2' as int + digit - 26) as char
    else '?'
  }

  function Index(c: char): Option<int> {
    if 'A' <= c <= 'Z' then Some(c as int - 'A' as int)
    else if '2' <= c <= '7' then Some(c as int - '2' as int + 26)
    else None
  }

  lemma AlphabetIsLetters()
    ensures |ALPHABET| == 32 && forall d :: 0 <= d < 32 ==> ALPHABET[d] == Letter(d)
  {
    forall d | 0 <= d < 32 ensures ALPHABET[d] == Letter(d) {
      if d < 8 {} else if d < 16 {} else if d < 24 {} else {}
    }
  }

  lemma LetterOfIndex(c: char)
    ensures Index(c).Some? ==> 0 <= Index(c).value < 32 && Letter(Index(c).value) == c
    ensures forall digit :: 0 <= digit < 32 && Letter(digit) == c ==> Index(c) == Some(digit)
  {}

  /** ALPHABET.indexOf. */
  method IndexOf(c: char) returns (index: Option<int>)
    ensures index == Index(c)
    ensures index.Some? ==> 0 <= index.value < 32
  {
    AlphabetIsLetters();
    LetterOfIndex(c);
    for i := 0 to 32
      invariant forall k :: 0 <= k < i ==> Letter(k) != c
    {
      if ALPHABET[i] == c { return Some(i); }
    }
    index := None;
  }

  function Letters(digits: seq<int>): (r: string)
    ensures |r| == |digits|
  {
    if digits == [] then "" else Letters(digits[..|digits| - 1]) + [Letter(digits[|digits| - 1])]
  }

  /** encodeBase32. */
  method EncodeBase32(bytes: seq<Byte>) returns (text: string)
    ensures text == Letters(EncodedDigits(bytes))
  {
    AlphabetIsLetters();
    var digits := EncodeDigits(WORD, bytes);
    text := "";
    for i := 0 to |digits|
      invariant text == Letters(digits[..i])
    {
      assert digits[..i + 1][..i] == digits[..i];
      assert digits[i] in digits;
      text := text + [ALPHABET[digits[i]]];
    }
    assert digits[..|digits|] == digits;
  }

  // ---------- Normalization ----------

  predicate IsSeparator(c: char) {
    c == '=' || c == '-' || c == ' ' || c == '\t' || c == '\n' || c == '\r' || c as int == 11 || c as int == 12
  }

  function Upper(c: char): char {
    if 'a' <= c <= 'z' then (c as int - 'a' as int + 'A' as int) as char else c
  }

  /** Upper case, without separators. */
  function Normalized(text: string): string {
    if text == "" then ""
    else Normalized(text[..|text| - 1]) + if IsSeparator(Upper(text[|text| - 1])) then "" else [Upper(text[|text| - 1])]
  }

  predicate IsBase32(text: string) { forall c :: c in text ==> Index(c).Some? }

  function Indexes(text: string): (r: seq<int>)
    requires IsBase32(text)
    ensures AllFit(r, 5) && |r| == |text|
  {
    if text == "" then []
    else
      assert text[|text| - 1] in text && forall c :: c in text[..|text| - 1] ==> c in text;
      Indexes(text[..|text| - 1]) + [Index(text[|text| - 1]).value]
  }

  /** What decodeBase32 returns: an error for a foreign character, then for a text too short to hold a byte. */
  function DecodedNormal(normalized: string): Result<seq<int>, Error> {
    if !IsBase32(normalized) then Err(InvalidCharacter)
    else if |normalized| < 2 then Err(NothingDecoded)
    else Ok(DecodedBytes(Indexes(normalized)))
  }

  function Decoded(text: string): Result<seq<int>, Error> { DecodedNormal(Normalized(text)) }

  method Normalize(text: string) returns (normalized: string)
    ensures normalized == Normalized(text)
  {
    normalized := "";
    for i := 0 to |text|
      invariant normalized == Normalized(text[..i])
    {
      assert text[..i + 1][..i] == text[..i];
      var c := Upper(text[i]);
      if !IsSeparator(c) { normalized := normalized + [c]; }
    }
    assert text[..|text|] == text;
  }

  /** decodeBase32. */
  method DecodeBase32(text: string) returns (r: Result<seq<int>, Error>)
    ensures r == Decoded(text)
    ensures r.Ok? ==> r.value != [] && AllFit(r.value, 8)
  {
    var normalized := Normalize(text);
    var digits: seq<int> := [];
    for i := 0 to |normalized|
      invariant IsBase32(normalized[..i]) && digits == Indexes(normalized[..i])
    {
      assert normalized[..i + 1][..i] == normalized[..i] && normalized[..i + 1] == normalized[..i] + [normalized[i]];
      assert normalized[i] in normalized;
      var index := IndexOf(normalized[i]);
      if index.None? { return Err(InvalidCharacter); }
      digits := digits + [index.value];
    }
    assert normalized[..|normalized|] == normalized;
    var bytes := DecodeDigits(WORD, digits);
    if bytes == [] { return Err(NothingDecoded); }
    r := Ok(bytes);
  }

  // ---------- What holds of every text ----------

  lemma {:induction false} NormalizedConcat(a: string, b: string)
    ensures Normalized(a + b) == Normalized(a) + Normalized(b)
  {
    if b == "" {
      assert a + b == a;
    } else {
      assert (a + b)[..|a + b| - 1] == a + b[..|b| - 1];
      NormalizedConcat(a, b[..|b| - 1]);
    }
  }

  lemma NormalizedAround(a: string, c: char, b: string)
    ensures Normalized(a + [c] + b) == Normalized(a) + Normalized([c]) + Normalized(b)
  {
    NormalizedConcat(a + [c], b);
    NormalizedConcat(a, [c]);
  }

  lemma SeparatorIsDropped(a: string, c: char, b: string)
    requires IsSeparator(c)
    ensures Normalized(a + [c] + b) == Normalized(a + b)
  {
    NormalizedOne(c);
    NormalizedAround(a, c, b);
    NormalizedConcat(a, b);
    assert Normalized(a) + "" == Normalized(a);
  }

  lemma CaseIsDropped(a: string, c: char, b: string)
    ensures Normalized(a + [c] + b) == Normalized(a + [Upper(c)] + b)
  {
    NormalizedOne(c);
    NormalizedOne(Upper(c));
    NormalizedAround(a, c, b);
    NormalizedAround(a, Upper(c), b);
  }

  /** A small letter anywhere decodes as its capital does. */
  lemma SmallLettersDecodeAsCapitals(a: string, k: nat, b: string)
    requires k < 26
    ensures Decoded(a + [('a' as int + k) as char] + b) == Decoded(a + [('A' as int + k) as char] + b)
  {
    assert Upper(('a' as int + k) as char) == ('A' as int + k) as char;
    CaseIsDropped(a, ('a' as int + k) as char, b);
  }

  /** Spaces, tabs, line ends, equal signs and hyphens anywhere make no difference. */
  lemma SeparatorsAreIgnored(a: string, b: string)
    ensures Decoded(a + " " + b) == Decoded(a + b)
    ensures Decoded(a + "=" + b) == Decoded(a + b)
    ensures Decoded(a + "-" + b) == Decoded(a + b)
    ensures Decoded(a + "\t" + b) == Decoded(a + b)
    ensures Decoded(a + "\n" + b) == Decoded(a + b)
    ensures Decoded(a + "\r" + b) == Decoded(a + b)
    ensures Decoded(a + [11 as char] + b) == Decoded(a + b)
    ensures Decoded(a + [12 as char] + b) == Decoded(a + b)
  {
    SeparatorIsDropped(a, ' ', b);
    SeparatorIsDropped(a, '=', b);
    SeparatorIsDropped(a, '-', b);
    SeparatorIsDropped(a, '\t', b);
    SeparatorIsDropped(a, '\n', b);
    SeparatorIsDropped(a, '\r', b);
    SeparatorIsDropped(a, 11 as char, b);
    SeparatorIsDropped(a, 12 as char, b);
  }

  /** The printable characters that Base32 has no use for. */
  predicate Foreign(c: char) {
    || c == '0' || c == '1' || c == '8' || c == '9'
    || ('!' <= c <= '/' && c != '-') || (':' <= c <= '@' && c != '=') || '[' <= c <= '`' || '{' <= c <= '~'
  }

  /** A foreign character anywhere is an error, whatever stands around it. */
  lemma ForeignCharactersAreRefused(a: string, c: char, b: string)
    requires Foreign(c)
    ensures Decoded(a + [c] + b) == Err(InvalidCharacter)
  {
    assert Upper(c) == c && !IsSeparator(c) && Index(c).None?;
    NormalizedOne(c);
    NormalizedAround(a, c, b);
    var text := Normalized(a + [c] + b);
    assert text[|Normalized(a)|] == c;
  }

  /** Every capital as its small letter. */
  function Lower(text: string): (r: string)
    ensures |r| == |text|
  {
    if text == "" then ""
    else
      var c := text[|text| - 1];
      Lower(text[..|text| - 1]) + [if 'A' <= c <= 'Z' then (c as int + 32) as char else c]
  }

  lemma {:induction false} LowerIsNormalizedAlike(text: string)
    ensures Normalized(Lower(text)) == Normalized(text)
  {
    if text != "" {
      var init, c := text[..|text| - 1], text[|text| - 1];
      var small := if 'A' <= c <= 'Z' then (c as int + 32) as char else c;
      LowerIsNormalizedAlike(init);
      assert text == init + [c] && Upper(small) == Upper(c);
      NormalizedConcat(init, [c]);
      NormalizedConcat(Lower(init), [small]);
      NormalizedOne(c);
      NormalizedOne(small);
    }
  }

  /** An encoded secret that was written in small letters decodes to its bytes. */
  lemma LowerCaseRoundTrip(bytes: seq<Byte>)
    requires bytes != []
    ensures Decoded(Lower(Letters(EncodedDigits(bytes)))) == Ok(bytes)
  {
    RoundTrip(bytes);
    LowerIsNormalizedAlike(Letters(EncodedDigits(bytes)));
  }

  lemma NormalizedOne(c: char)
    ensures Normalized([c]) == (if IsSeparator(Upper(c)) then "" else [Upper(c)])
    ensures IsSeparator(c) ==> Normalized([c]) == ""
    ensures Upper(Upper(c)) == Upper(c)
  {
    assert [c][..0] == "";
  }

  lemma LetterIsPlain(digit: int)
    requires 0 <= digit < 32
    ensures Upper(Letter(digit)) == Letter(digit) && !IsSeparator(Letter(digit)) && Index(Letter(digit)) == Some(digit)
  {}

  lemma {:induction false} LettersAreNormal(digits: seq<int>)
    requires AllFit(digits, 5)
    ensures Normalized(Letters(digits)) == Letters(digits)
    decreases |digits|
  {
    if digits != [] {
      var init, last := digits[..|digits| - 1], digits[|digits| - 1];
      assert last in digits && forall d :: d in init ==> d in digits;
      LettersAreNormal(init);
      LetterIsPlain(last);
      AppendPlain(Letters(init), Letter(last));
    }
  }

  lemma AppendPlain(text: string, c: char)
    requires Upper(c) == c && !IsSeparator(c)
    ensures Normalized(text + [c]) == Normalized(text) + [c]
  {
    assert (text + [c])[..|text|] == text;
  }

  lemma {:induction false} IndexesOfLetters(digits: seq<int>)
    requires AllFit(digits, 5)
    ensures IsBase32(Letters(digits)) && Indexes(Letters(digits)) == digits
    decreases |digits|
  {
    if digits != [] {
      var init, last := digits[..|digits| - 1], digits[|digits| - 1];
      assert last in digits && forall d :: d in init ==> d in digits;
      IndexesOfLetters(init);
      LetterIsPlain(last);
      AppendIndex(Letters(init), Letter(last));
    }
  }

  lemma AppendIndex(text: string, c: char)
    requires IsBase32(text) && Index(c).Some?
    ensures IsBase32(text + [c]) && Indexes(text + [c]) == Indexes(text) + [Index(c).value]
  {
    assert (text + [c])[..|text|] == text;
  }

  /**
   * decodeBase32(encodeBase32(bytes)) is bytes, for every byte string but the empty one, which has no
   * text to decode.
   */
  lemma RoundTrip(bytes: seq<Byte>)
    ensures Decoded(Letters(EncodedDigits(bytes))) == if bytes == [] then Err(NothingDecoded) else Ok(bytes)
  {
    var digits := EncodedDigits(bytes);
    DigitsFit(Shl(Val(bytes, 8), 5 * EncodedLength(|bytes|) - 8 * |bytes|), EncodedLength(|bytes|), 5);
    LettersAreNormal(digits);
    IndexesOfLetters(digits);
    DecodeInvertsEncode(bytes);
    assert |digits| == EncodedLength(|bytes|);
  }
}
