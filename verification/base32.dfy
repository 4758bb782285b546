/**
 * Base32 as in section 6 of RFC 4648, without padding, computed with an accumulator that wraps
 * around: its digits are those of the whole byte string read as one number.
 */
module Base32 {
  import opened Prelude
  import opened Bits

  type Byte = x: int | 0 <= x < 256

  datatype Error = InvalidCharacter | NothingDecoded

  lemma Sizes()
    ensures Shl(1, 5) == 32 && Shl(1, 8) == 256
  {
    assert Shl(1, 4) == 16;
    assert Shl(1, 8) == 2 * Shl(1, 7) == 4 * Shl(1, 6) == 8 * Shl(1, 5);
  }

  // ---------- Operations of an accumulator of `word` bits ----------

  /** `(buffer << width) | low`, with a `low` below the shifted bits. */
  function ShiftIn(word: nat, buffer: int, width: nat, low: int): int { Low(Shl(buffer, width) + low, word) }

  /** `(buffer >>> k) & mask` with a mask of `width` bits. */
  function Field(buffer: int, k: nat, width: nat): int { Low(Shr(buffer, k), width) }

  /** The wrapped accumulator agrees with the unbounded one when bits are shifted in. */
  lemma WrapShift(word: nat, v: int, width: nat, low: int)
    ensures Low(Shl(Low(v, word), width) + low, word) == Low(Shl(v, width) + low, word)
  {
    ShlSplit(v, word, width);
    HighDropped(Shl(Low(v, word), width) + low, Shl(Shr(v, word), width), word, Shl(v, width) + low);
  }

  /** A field of the wrapped accumulator is that field of the unbounded bit stream. */
  lemma WrapField(word: nat, v: int, k: nat, width: nat)
    requires k + width <= word
    ensures Field(Low(v, word), k, width) == Low(Shr(v, k), width)
  {
    var q := Shr(v, word);
    ShlTwice(q, word - k, k);
    AddHigh(Low(v, word), Shl(q, word - k), k);
    ShlTwice(q, word - k - width, width);
    AddHigh(Shr(Low(v, word), k), Shl(q, word - k - width), width);
  }

  // ---------- The bit stream ----------

  /** The stream without its last `k` bits ends with the field above them. */
  lemma NextField(v: int, k: nat, width: nat)
    ensures Shr(v, k) == Shl(Shr(v, k + width), width) + Low(Shr(v, k), width)
  {
    ShrTwice(v, k, width);
  }

  /** New bits at the end do not change what is above them. */
  lemma ShiftedStream(v: int, low: int, width: nat, k: nat)
    requires Fits(low, width)
    ensures Shr(Shl(v, width) + low, k + width) == Shr(v, k)
  {
    SplitOnce(v, low, width);
    ShrTwice(Shl(v, width) + low, width, k);
  }

  // ---------- Encoding ----------

  function EncodedLength(n: nat): nat { (8 * n + 4) / 5 }

  /** The digits of the byte string read as one number, padded with zero bits on the right. */
  function EncodedDigits(bytes: seq<Byte>): seq<int> {
    Digits(Shl(Val(bytes, 8), 5 * EncodedLength(|bytes|) - 8 * |bytes|), EncodedLength(|bytes|), 5)
  }

  /** The accumulator after the bytes so far: it holds the low bits, the digits all bits above the pending ones. */
  ghost predicate Encoding(word: nat, v: int, buffer: int, bits: nat, digits: seq<int>) {
    buffer == Low(v, word) && AllFit(digits, 5) && Val(digits, 5) == Shr(v, bits)
  }

  method TakeFields(ghost word: nat, ghost v: int, buffer: int, bits0: nat, digits0: seq<int>)
    returns (bits: nat, digits: seq<int>)
    requires Encoding(word, v, buffer, bits0, digits0) && bits0 <= 12 <= word
    ensures Encoding(word, v, buffer, bits, digits) && bits < 5 && bits + 5 * |digits| == bits0 + 5 * |digits0|
  {
    bits, digits := bits0, digits0;
    while bits >= 5
      invariant Encoding(word, v, buffer, bits, digits) && bits <= 12 && bits + 5 * |digits| == bits0 + 5 * |digits0|
    {
      var digit := Field(buffer, bits - 5, 5);
      WrapField(word, v, bits - 5, 5);
      LowFits(Shr(v, bits - 5), 5);
      NextField(v, bits - 5, 5);
      Append(digits, 5, digit);
      digits := digits + [digit];
      bits := bits - 5;
    }
  }

  method EncodeByte(word: nat, ghost v: int, buffer0: int, bits0: nat, digits0: seq<int>, byte: Byte)
    returns (buffer: int, bits: nat, digits: seq<int>)
    requires Encoding(word, v, buffer0, bits0, digits0) && bits0 < 5 && word >= 12
    ensures Encoding(word, Shl(v, 8) + byte, buffer, bits, digits) && bits < 5
            && bits + 5 * |digits| == bits0 + 5 * |digits0| + 8
  {
    WrapShift(word, v, 8, byte);
    Sizes();
    ShiftedStream(v, byte, 8, bits0);
    buffer := ShiftIn(word, buffer0, 8, byte);
    bits, digits := TakeFields(word, Shl(v, 8) + byte, buffer, bits0 + 8, digits0);
  }

  /** The last digit: the remaining bits, moved to the top of a field. */
  lemma LastField(word: nat, v: int, bits: nat)
    requires 0 < bits < 5 <= word
    ensures Shl(Shr(v, bits), 5) + Low(ShiftIn(word, Low(v, word), 5 - bits, 0), 5) == Shl(v, 5 - bits)
  {
    var x := Shl(v, 5 - bits);
    WrapShift(word, v, 5 - bits, 0);
    WrapField(word, x, 0, 5);
    ShlZero(5 - bits);
    ShlOrder(0, 1, 5 - bits);
    assert Fits(0, 5 - bits) by { OnePositive(5 - bits); }
    ShiftedStream(v, 0, 5 - bits, bits);
    NextField(x, 0, 5);
  }

  lemma {:induction false} OnePositive(k: nat)
    ensures Shl(1, k) > 0
  {
    if k > 0 { OnePositive(k - 1); }
  }

  method EncodeLast(word: nat, ghost v: int, buffer: int, bits: nat, digits0: seq<int>) returns (digits: seq<int>)
    requires Encoding(word, v, buffer, bits, digits0) && bits < 5 <= word
    ensures AllFit(digits, 5) && |digits| == |digits0| + (if bits > 0 then 1 else 0)
    ensures Val(digits, 5) == Shl(v, if bits > 0 then 5 - bits else 0)
  {
    digits := digits0;
    if bits > 0 {
      LastField(word, v, bits);
      var last := Low(ShiftIn(word, buffer, 5 - bits, 0), 5);
      LowFits(ShiftIn(word, buffer, 5 - bits, 0), 5);
      Append(digits, 5, last);
      digits := digits + [last];
    }
  }

  lemma DigitsNeeded(n: nat, bits: nat, count: nat)
    requires bits < 5 && bits + 5 * count == 8 * n
    ensures EncodedLength(n) == count + (if bits > 0 then 1 else 0)
    ensures 5 * EncodedLength(n) - 8 * n == if bits > 0 then 5 - bits else 0
  {}

  /**
   * encodeBase32 before the alphabet: an accumulator of at least 12 bits, wrapping around, produces the
   * digits of the whole.
   */
  method EncodeDigits(word: nat, bytes: seq<Byte>) returns (digits: seq<int>)
    requires word >= 12
    ensures digits == EncodedDigits(bytes)
    ensures AllFit(digits, 5)
  {
    var bits: nat, buffer := 0, 0;
    digits := [];
    SplitZero(word);
    for i := 0 to |bytes|
      invariant Encoding(word, Val(bytes[..i], 8), buffer, bits, digits) && bits < 5 && bits + 5 * |digits| == 8 * i
    {
      assert bytes[..i + 1] == bytes[..i] + [bytes[i]];
      Append(bytes[..i], 8, bytes[i]);
      buffer, bits, digits := EncodeByte(word, Val(bytes[..i], 8), buffer, bits, digits, bytes[i]);
    }
    assert bytes[..|bytes|] == bytes;
    DigitsNeeded(|bytes|, bits, |digits|);
    digits := EncodeLast(word, Val(bytes, 8), buffer, bits, digits);
    DigitsOfVal(digits, 5);
  }

  lemma SplitZero(k: nat)
    ensures Low(0, k) == 0
  {
    ShlZero(k);
    OnePositive(k);
    SplitOnce(0, 0, k);
  }

  // ---------- Decoding ----------

  /** The whole bytes of a digit string read as one number; bits that do not fill a byte are dropped. */
  function DecodedBytes(digits: seq<int>): seq<int> {
    Digits(Shr(Val(digits, 5), 5 * |digits| % 8), 5 * |digits| / 8, 8)
  }

  ghost predicate Decoding(word: nat, v: int, buffer: int, bits: nat, bytes: seq<int>) {
    buffer == Low(v, word) && bits < 8 && AllFit(bytes, 8) && Val(bytes, 8) == Shr(v, bits)
  }

  method DecodeDigit(word: nat, ghost v: int, buffer0: int, bits0: nat, bytes0: seq<int>, digit: int)
    returns (buffer: int, bits: nat, bytes: seq<int>)
    requires Decoding(word, v, buffer0, bits0, bytes0) && Fits(digit, 5) && word >= 12
    ensures Decoding(word, Shl(v, 5) + digit, buffer, bits, bytes) && bits + 8 * |bytes| == bits0 + 8 * |bytes0| + 5
  {
    ghost var x := Shl(v, 5) + digit;
    WrapShift(word, v, 5, digit);
    ShiftedStream(v, digit, 5, bits0);
    buffer, bits, bytes := ShiftIn(word, buffer0, 5, digit), bits0 + 5, bytes0;
    if bits >= 8 {
      WrapField(word, x, bits - 8, 8);
      NextField(x, bits - 8, 8);
      LowFits(Shr(x, bits - 8), 8);
      var byte := Field(buffer, bits - 8, 8);
      Append(bytes, 8, byte);
      bytes := bytes + [byte];
      bits := bits - 8;
    }
  }

  lemma BytesHeld(m: nat, bits: nat, count: nat)
    requires bits < 8 && bits + 8 * count == 5 * m
    ensures 5 * m / 8 == count && 5 * m % 8 == bits
  {}

  method DecodeDigits(word: nat, digits: seq<int>) returns (bytes: seq<int>)
    requires AllFit(digits, 5) && word >= 12
    ensures bytes == DecodedBytes(digits) && AllFit(bytes, 8)
  {
    var bits: nat, buffer := 0, 0;
    bytes := [];
    SplitZero(word);
    for i := 0 to |digits|
      invariant Decoding(word, Val(digits[..i], 5), buffer, bits, bytes) && bits + 8 * |bytes| == 5 * i
    {
      assert digits[..i + 1] == digits[..i] + [digits[i]];
      Append(digits[..i], 5, digits[i]);
      assert digits[i] in digits;
      buffer, bits, bytes := DecodeDigit(word, Val(digits[..i], 5), buffer, bits, bytes, digits[i]);
    }
    assert digits[..|digits|] == digits;
    BytesHeld(|digits|, bits, |bytes|);
    DigitsOfVal(bytes, 8);
  }

  // ---------- Round trip ----------

  lemma FitsBelow(q: int, r: int, a: nat, b: nat)
    requires Fits(q, a) && Fits(r, b)
    ensures Fits(Shl(q, b) + r, a + b)
  {
    ShlTwice(1, a, b);
    ShlZero(b);
    ShlOrder(0, q, b);
    ShlOrder(q + 1, Shl(1, a), b);
    ShlSum(q, 1, b);
  }

  lemma {:induction false} BytesFit(bytes: seq<Byte>)
    ensures Fits(Val(bytes, 8), 8 * |bytes|)
    decreases |bytes|
  {
    Sizes();
    if bytes != [] {
      var init, last := bytes[..|bytes| - 1], bytes[|bytes| - 1];
      BytesFit(init);
      FitsBelow(Val(init, 8), last, 8 * |init|, 8);
    }
  }

  /** Numbers that fit keep their value in their digits. */
  lemma {:induction false} ValOfDigits(v: int, length: nat)
    requires Fits(v, 5 * length)
    ensures Val(Digits(v, length, 5), 5) == v
    decreases length
  {
    if length > 0 {
      HighFits(v, 5 * (length - 1), 5);
      ValOfDigits(Shr(v, 5), length - 1);
      Append(Digits(Shr(v, 5), length - 1, 5), 5, Low(v, 5));
    }
  }

  lemma HighFits(v: int, a: nat, b: nat)
    requires Fits(v, a + b)
    ensures Fits(Shr(v, b), a)
  {
    var q := Shr(v, b);
    LowFits(v, b);
    ShlTwice(1, a, b);
    ShlZero(b);
    if q < 0 { ShlOrder(q, -1, b); ShlSum(-1, 1, b); }
    if q >= Shl(1, a) { ShlOrder(Shl(1, a), q, b); }
  }

  /** Decoding what was encoded gives the bytes back. */
  lemma DecodeInvertsEncode(bytes: seq<Byte>)
    ensures DecodedBytes(EncodedDigits(bytes)) == bytes
  {
    var n, m := |bytes|, EncodedLength(|bytes|);
    var c, v := 5 * m - 8 * n, Val(bytes, 8);
    BytesFit(bytes);
    OnePositive(c);
    FitsBelow(v, 0, 8 * n, c);
    ValOfDigits(Shl(v, c), m);
    SplitOnce(v, 0, c);
    assert 5 * m / 8 == n && 5 * m % 8 == c;
    Sizes();
    DigitsOfVal(bytes, 8);
  }
}
