/** Identifiers as text: the encoder as it writes into a string with 32-bit arithmetic, its
    specialised copy for base 58, and the base 58 digit table. */
module IdText {
  import opened IdEncoding

  newtype U32 = x: int | 0 <= x < 0x1_0000_0000

  const MAX_LIMIT: nat := 0x1_0000

  const LIMIT: U32 := 65535

  const NUMERALS: string := "123456789"

  const CAPITALS: string := "ABCDEFGHJKLMNPQRSTUVWXYZ"

  const SMALL: string := "abcdefghijkmnopqrstuvwxyz"

  const ALPHABET_BASE58: string := NUMERALS + CAPITALS + SMALL

  const ALPHABET_BASE36: string := "0123456789abcdefghijklmnopqrstuvwxyz"

  const NOT_A_DIGIT: nat := 255

  /** Lookup table for base 58 digits, sixteen characters a row. */
  const BASE58_DIGITS: seq<nat> := ((ROW0 + ROW1) + (ROW2 + ROW3)) + ((ROW4 + ROW5) + (ROW6 + ROW7))

  const ROW0: seq<nat> := [255, 255, 255, 255, 255, 255, 255, 255, 255, 255, 255, 255, 255, 255, 255, 255]
  const ROW1: seq<nat> := [255, 255, 255, 255, 255, 255, 255, 255, 255, 255, 255, 255, 255, 255, 255, 255]
  const ROW2: seq<nat> := [255, 255, 255, 255, 255, 255, 255, 255, 255, 255, 255, 255, 255, 255, 255, 255]
  const ROW3: seq<nat> := [255, 0, 1, 2, 3, 4, 5, 6, 7, 8, 255, 255, 255, 255, 255, 255]
  const ROW4: seq<nat> := [255, 9, 10, 11, 12, 13, 14, 15, 16, 255, 17, 18, 19, 20, 21, 255]
  const ROW5: seq<nat> := [22, 23, 24, 25, 26, 27, 28, 29, 30, 31, 32, 255, 255, 255, 255, 255]
  const ROW6: seq<nat> := [255, 33, 34, 35, 36, 37, 38, 39, 40, 41, 42, 43, 255, 44, 45, 46]
  const ROW7: seq<nat> := [47, 48, 49, 50, 51, 52, 53, 54, 55, 56, 57, 255, 255, 255, 255, 255]

  // ---------- Spelling ----------

  lemma SpellConcat(alphabet: seq<char>, x: Digits, y: Digits)
    requires AllBelow(x, |alphabet|) && AllBelow(y, |alphabet|)
    ensures AllBelow(x + y, |alphabet|) && Spell(alphabet, x + y) == Spell(alphabet, x) + Spell(alphabet, y)
  {
  }

  /** Products of two bases fit 32 bits for every limit up to 65536, the bound the algorithm needs. */
  lemma ProductFits(p: nat, q: nat, limit: nat)
    requires 2 <= limit <= MAX_LIMIT && (p < limit || p == 256) && (q < limit || q == 256)
    ensures Times(p, q) < 0x1_0000_0000
  {
    assert p <= 65535 && q <= 65535;
    TimesMonotone(p, 65535, q);
    assert Times(65535, q) == 65535 * q;
  }

  // ---------- Encoding in place ----------

  /** A growing string. */
  class Text {
    var chars: string

    constructor ()
      ensures chars == ""
    {
      chars := "";
    }

    method Push(c: char)
      modifies this
      ensures chars == old(chars) + [c]
    {
      chars := chars + [c];
    }
  }

  function DivCeil(base: U32, b: U32): (r: U32)
    requires 2 <= b
    ensures r as nat == CeilDiv(base as nat, b as nat)
  {
    RoundUpFits(base as nat, b as nat);
    if base % b == 0 then base / b else base / b + 1
  }

  lemma RoundUpFits(base: nat, b: nat)
    requires 2 <= b && base < 0x1_0000_0000
    ensures base / b + 1 < 0x1_0000_0000
  {
    hide Times;
    Division(base, b);
    Doubling(base / b, b);
  }

  lemma QuotientFits(digit: U32, b: U32)
    requires 2 <= b
    ensures (digit % b) as nat == digit as nat % b as nat < b as nat && (digit / b) as nat == digit as nat / b as nat
  {
  }

  method EmitDigit(out: Text, alphabet: seq<char>, digit: U32, base: U32) returns (digit': U32, base': U32)
    requires 2 <= |alphabet| < 0x1_0000_0000
    modifies out
    ensures out.chars == old(out.chars) + [alphabet[digit as nat % |alphabet|]]
    ensures digit' as nat == digit as nat / |alphabet| && base' as nat == CeilDiv(base as nat, |alphabet|)
  {
    hide CeilDiv, DivCeil;
    var alphabetBase := |alphabet| as U32;
    QuotientFits(digit, alphabetBase);
    out.Push(alphabet[digit % alphabetBase]);
    digit' := digit / alphabetBase;
    base' := DivCeil(base, alphabetBase);
  }

  /** Emit digits until the base is below `stop`. */
  method EmitDigits(out: Text, alphabet: seq<char>, stop: U32, digit: U32, base: U32) returns (digit': U32, base': U32)
    requires 2 <= |alphabet| < 0x1_0000_0000 && 2 <= stop && (digit < base || base < stop)
    modifies out
    ensures var r := Squeeze(|alphabet|, stop as nat, digit as nat, base as nat);
            && digit' as nat == r.digit && base' as nat == r.base
            && AllBelow(r.out, |alphabet|) && out.chars == old(out.chars) + Spell(alphabet, r.out)
  {
    hide CeilDiv, Squeeze;
    var b := |alphabet|;
    ghost var r := Squeeze(b, stop as nat, digit as nat, base as nat);
    ghost var emitted: Digits := [];
    digit', base' := digit, base;
    assert Spell(alphabet, []) == "";
    while base' >= stop
      invariant AllBelow(emitted, b) && out.chars == old(out.chars) + Spell(alphabet, emitted)
      invariant digit' < base' || base' < stop
      invariant var s := Squeeze(b, stop as nat, digit' as nat, base' as nat);
                r == Coded(emitted + s.out, s.digit, s.base)
      decreases base'
    {
      SqueezeStep(b, stop as nat, digit' as nat, base' as nat);
      CeilDivShrinks(base' as nat, b);
      DivBounds(digit' as nat, base' as nat, b);
      ghost var d := digit' as nat % b;
      SpellConcat(alphabet, emitted, [d]);
      digit', base' := EmitDigit(out, alphabet, digit', base');
      emitted := emitted + [d];
    }
    SqueezeStep(b, stop as nat, digit' as nat, base' as nat);
  }

  lemma SqueezeStep(b: nat, stop: nat, digit: nat, base: nat)
    requires 2 <= b && 2 <= stop
    ensures base < stop ==> Squeeze(b, stop, digit, base) == Coded([], digit, base)
    ensures base >= stop ==>
              var s := Squeeze(b, stop, digit / b, CeilDiv(base, b));
              digit % b < b && Squeeze(b, stop, digit, base) == Coded([digit % b] + s.out, s.digit, s.base)
  {
  }

  method EncodeRec(out: Text, alphabet: seq<char>, limit: U32, bytes: seq<Octet>) returns (digit: U32, base: U32)
    requires 2 <= |alphabet| < 0x1_0000_0000 && 2 <= limit as nat <= MAX_LIMIT
    modifies out
    ensures var r := EncodeBlock(|alphabet|, limit as nat, bytes);
            && digit as nat == r.digit && base as nat == r.base
            && AllBelow(r.out, |alphabet|) && out.chars == old(out.chars) + Spell(alphabet, r.out)
    decreases |bytes|
  {
    hide *;
    SmallBlock(alphabet, limit as nat, bytes);
    if |bytes| == 0 { return 0, 0; }
    if |bytes| == 1 { return bytes[0] as U32, 256; }
    var mid := |bytes| / 2;
    BlockFacts(|alphabet|, limit as nat, bytes[..mid]);
    BlockFacts(|alphabet|, limit as nat, bytes[mid..]);
    var firstDigit, firstBase := EncodeRec(out, alphabet, limit, bytes[..mid]);
    var secondDigit, secondBase := EncodeRec(out, alphabet, limit, bytes[mid..]);
    digit, base := Joined(firstDigit, firstBase, secondDigit, secondBase, limit);
    digit, base := EmitDigits(out, alphabet, limit, digit, base);
    SpellBlock(alphabet, limit as nat, bytes);
  }

  /** The combined remainder and its base, without overflow. */
  method Joined(firstDigit: U32, firstBase: U32, secondDigit: U32, secondBase: U32, ghost limit: U32) returns (digit: U32, base: U32)
    requires 2 <= limit as nat <= MAX_LIMIT && firstDigit < firstBase && secondDigit < secondBase
    requires (firstBase < limit || firstBase == 256) && (secondBase < limit || secondBase == 256)
    ensures digit < base && base as nat == Times(firstBase as nat, secondBase as nat)
    ensures digit as nat == firstDigit as nat + Times(secondDigit as nat, firstBase as nat)
  {
    hide Times;
    ProductFits(firstBase as nat, secondBase as nat, limit as nat);
    Combine(firstDigit as nat, firstBase as nat, secondDigit as nat, secondBase as nat);
    TimesIs(firstBase, secondBase);
    TimesIs(secondDigit, firstBase);
    base := firstBase * secondBase;
    digit := firstDigit + secondDigit * firstBase;
  }

  lemma SpellBlock(alphabet: seq<char>, limit: nat, bytes: seq<Octet>)
    requires 2 <= |alphabet| && 2 <= limit && 2 <= |bytes|
    ensures var mid := |bytes| / 2;
            var first, second := EncodeBlock(|alphabet|, limit, bytes[..mid]), EncodeBlock(|alphabet|, limit, bytes[mid..]);
            var s := Squeeze(|alphabet|, limit, first.digit + Times(second.digit, first.base), Times(first.base, second.base));
            var r := EncodeBlock(|alphabet|, limit, bytes);
            && AllBelow(first.out, |alphabet|) && AllBelow(second.out, |alphabet|) && AllBelow(s.out, |alphabet|) && AllBelow(r.out, |alphabet|)
            && r.digit == s.digit && r.base == s.base
            && Spell(alphabet, r.out) == Spell(alphabet, first.out) + Spell(alphabet, second.out) + Spell(alphabet, s.out)
  {
    hide *;
    var b, mid := |alphabet|, |bytes| / 2;
    BlockFacts(b, limit, bytes);
    BlockFacts(b, limit, bytes[..mid]);
    BlockFacts(b, limit, bytes[mid..]);
    var first, second := EncodeBlock(b, limit, bytes[..mid]), EncodeBlock(b, limit, bytes[mid..]);
    Combine(first.digit, first.base, second.digit, second.base);
    SqueezeFacts(b, limit, first.digit + Times(second.digit, first.base), Times(first.base, second.base));
    BlockOf(b, limit, bytes, first, second);
    SpellConcat(alphabet, first.out, second.out);
    SpellConcat(alphabet, first.out + second.out, Squeeze(b, limit, first.digit + Times(second.digit, first.base), Times(first.base, second.base)).out);
  }

  lemma SmallBlock(alphabet: seq<char>, limit: nat, bytes: seq<Octet>)
    requires 2 <= |alphabet| && 2 <= limit
    ensures bytes == [] ==> EncodeBlock(|alphabet|, limit, bytes) == Coded([], 0, 0)
    ensures |bytes| == 1 ==> EncodeBlock(|alphabet|, limit, bytes) == Coded([], bytes[0], 256)
    ensures AllBelow([], |alphabet|) && Spell(alphabet, []) == ""
  {
  }

  lemma TimesIs(x: U32, y: U32)
    ensures Times(x as nat, y as nat) == x as int * y as int
  {
  }

  /** `encode`: no overflow, and exactly the specified digits. */
  method EncodeInto(out: Text, alphabet: seq<char>, limit: U32, bytes: seq<Octet>)
    requires 2 <= |alphabet| < 0x1_0000_0000 && 2 <= limit as nat <= MAX_LIMIT
    modifies out
    ensures out.chars == old(out.chars) + EncodeText(alphabet, limit as nat, bytes)
  {
    hide Squeeze, EncodeBlock, BlockShape, DecodeBlock;
    BlockFacts(|alphabet|, limit as nat, bytes);
    var digit, base := EncodeRec(out, alphabet, limit, bytes);
    ghost var r := EncodeBlock(|alphabet|, limit as nat, bytes);
    digit, base := EmitDigits(out, alphabet, 2, digit, base);
    SpellConcat(alphabet, r.out, Squeeze(|alphabet|, 2, r.digit, r.base).out);
  }

  // ---------- The copy specialised for base 58 ----------

  const BASE: U32 := 58

  lemma AlphabetSizes()
    ensures |ALPHABET_BASE58| == BASE as nat == 58 && |ALPHABET_BASE36| == 36 && LIMIT as nat == 65535 < MAX_LIMIT
  {
  }

  method EmitBase58Digit(str: Text, digit: U32, base: U32) returns (digit': U32, base': U32)
    modifies str
    ensures str.chars == old(str.chars) + [ALPHABET_BASE58[digit as nat % 58]]
    ensures digit' as nat == digit as nat / 58 && base' as nat == CeilDiv(base as nat, 58)
  {
    hide CeilDiv, DivCeil;
    AlphabetSizes();
    str.Push(ALPHABET_BASE58[digit % BASE]);
    digit' := digit / BASE;
    base' := DivCeil(base, BASE);
  }

  method EmitBase58Digits(str: Text, stop: U32, digit: U32, base: U32) returns (digit': U32, base': U32)
    requires 2 <= stop && (digit < base || base < stop)
    modifies str
    ensures var r := Squeeze(58, stop as nat, digit as nat, base as nat);
            && digit' as nat == r.digit && base' as nat == r.base
            && AllBelow(r.out, |ALPHABET_BASE58|) && str.chars == old(str.chars) + Spell(ALPHABET_BASE58, r.out)
  {
    hide CeilDiv, Squeeze, ALPHABET_BASE58;
    AlphabetSizes();
    ghost var r := Squeeze(58, stop as nat, digit as nat, base as nat);
    ghost var emitted: Digits := [];
    digit', base' := digit, base;
    assert Spell(ALPHABET_BASE58, []) == "";
    while base' >= stop
      invariant AllBelow(emitted, 58) && str.chars == old(str.chars) + Spell(ALPHABET_BASE58, emitted)
      invariant digit' < base' || base' < stop
      invariant var s := Squeeze(58, stop as nat, digit' as nat, base' as nat);
                r == Coded(emitted + s.out, s.digit, s.base)
      decreases base'
    {
      SqueezeStep(58, stop as nat, digit' as nat, base' as nat);
      CeilDivShrinks(base' as nat, 58);
      DivBounds(digit' as nat, base' as nat, 58);
      ghost var d := digit' as nat % 58;
      SpellConcat(ALPHABET_BASE58, emitted, [d]);
      digit', base' := EmitBase58Digit(str, digit', base');
      emitted := emitted + [d];
    }
    SqueezeStep(58, stop as nat, digit' as nat, base' as nat);
  }

  method FromBytesRec(str: Text, bytes: seq<Octet>) returns (digit: U32, base: U32)
    modifies str
    ensures var r := EncodeBlock(58, LIMIT as nat, bytes);
            && digit as nat == r.digit && base as nat == r.base
            && AllBelow(r.out, |ALPHABET_BASE58|) && str.chars == old(str.chars) + Spell(ALPHABET_BASE58, r.out)
    decreases |bytes|
  {
    hide *;
    AlphabetSizes();
    SmallBlock(ALPHABET_BASE58, LIMIT as nat, bytes);
    if |bytes| == 0 { return 0, 0; }
    if |bytes| == 1 { return bytes[0] as U32, 256; }
    var mid := |bytes| / 2;
    BlockFacts(58, LIMIT as nat, bytes[..mid]);
    BlockFacts(58, LIMIT as nat, bytes[mid..]);
    var firstDigit, firstBase := FromBytesRec(str, bytes[..mid]);
    var secondDigit, secondBase := FromBytesRec(str, bytes[mid..]);
    digit, base := Joined(firstDigit, firstBase, secondDigit, secondBase, LIMIT);
    digit, base := EmitBase58Digits(str, LIMIT, digit, base);
    SpellBlock(ALPHABET_BASE58, LIMIT as nat, bytes);
  }

  /** `FlatRawId::from_bytes` is `encode` at base 58 and limit 65535. */
  method FromBytes(bytes: seq<Octet>) returns (raw: string)
    ensures |ALPHABET_BASE58| == 58 && raw == EncodeText(ALPHABET_BASE58, LIMIT as nat, bytes)
  {
    hide Squeeze, EncodeBlock, BlockShape, DecodeBlock, ALPHABET_BASE58;
    AlphabetSizes();
    BlockFacts(58, LIMIT as nat, bytes);
    var str := new Text();
    var digit, base := FromBytesRec(str, bytes);
    ghost var r := EncodeBlock(58, LIMIT as nat, bytes);
    digit, base := EmitBase58Digits(str, 2, digit, base);
    SpellConcat(ALPHABET_BASE58, r.out, Squeeze(58, 2, r.digit, r.base).out);
    raw := str.chars;
  }

  // ---------- Reading identifiers ----------

  /** The value of a character as a digit, range by range. */
  function DigitValue(c: nat): nat {
    if 49 <= c <= 57 then c - 49
    else if 65 <= c <= 72 then c - 56
    else if 74 <= c <= 78 then c - 57
    else if 80 <= c <= 90 then c - 58
    else if 97 <= c <= 107 then c - 64
    else if 109 <= c <= 122 then c - 65
    else NOT_A_DIGIT
  }

  lemma LowRows(j: nat)
    requires j < 16
    ensures |ROW0| == |ROW1| == |ROW2| == |ROW3| == 16
    ensures ROW0[j] == DigitValue(j) && ROW1[j] == DigitValue(16 + j) && ROW2[j] == DigitValue(32 + j) && ROW3[j] == DigitValue(48 + j)
  {
  }

  lemma HighRows(j: nat)
    requires j < 16
    ensures |ROW4| == |ROW5| == |ROW6| == |ROW7| == 16
    ensures ROW4[j] == DigitValue(64 + j) && ROW5[j] == DigitValue(80 + j) && ROW6[j] == DigitValue(96 + j) && ROW7[j] == DigitValue(112 + j)
  {
  }

  lemma TableRows(c: nat)
    requires c < 128
    ensures |BASE58_DIGITS| == 128 && BASE58_DIGITS[c] == DigitValue(c)
  {
    hide DigitValue, ROW0, ROW1, ROW2, ROW3, ROW4, ROW5, ROW6, ROW7;
    LowRows(c % 16);
    HighRows(c % 16);
    assert c == c / 16 * 16 + c % 16;
  }

  lemma Numerals(j: nat)
    ensures |NUMERALS| == 9 && (j < 9 ==> NUMERALS[j] as int < 128 && DigitValue(NUMERALS[j] as int) == j)
  {
  }

  lemma Capitals(j: nat)
    ensures |CAPITALS| == 24 && (j < 24 ==> CAPITALS[j] as int < 128 && DigitValue(CAPITALS[j] as int) == 9 + j)
  {
  }

  lemma Small(j: nat)
    ensures |SMALL| == 25 && (j < 25 ==> SMALL[j] as int < 128 && DigitValue(SMALL[j] as int) == 33 + j)
  {
  }

  lemma AlphabetRanges(d: nat)
    requires d < 58
    ensures |ALPHABET_BASE58| == 58 && DigitValue(ALPHABET_BASE58[d] as int) == d && ALPHABET_BASE58[d] as int < 128
  {
    hide NUMERALS, CAPITALS, SMALL, DigitValue;
    Numerals(d);
    Capitals(if d < 9 then 0 else d - 9);
    Small(if d < 33 then 0 else d - 33);
  }

  /** The lookup table inverts the alphabet: position by position, and nothing else is a digit. */
  lemma TableInvertsAlphabet()
    ensures |BASE58_DIGITS| == 128 && |ALPHABET_BASE58| == 58
    ensures forall d :: 0 <= d < 58 ==> ALPHABET_BASE58[d] as int < 128 && BASE58_DIGITS[ALPHABET_BASE58[d] as int] == d
    ensures forall c :: 0 <= c < 128 && BASE58_DIGITS[c] != NOT_A_DIGIT ==>
              BASE58_DIGITS[c] < 58 && ALPHABET_BASE58[BASE58_DIGITS[c]] as int == c
  {
    hide BASE58_DIGITS, ALPHABET_BASE58;
    TableRows(0);
    AlphabetSizes();
    forall d | 0 <= d < 58 ensures ALPHABET_BASE58[d] as int < 128 && BASE58_DIGITS[ALPHABET_BASE58[d] as int] == d {
      AlphabetRanges(d);
      TableRows(ALPHABET_BASE58[d] as int);
    }
    forall c | 0 <= c < 128 && BASE58_DIGITS[c] != NOT_A_DIGIT
      ensures BASE58_DIGITS[c] < 58 && ALPHABET_BASE58[BASE58_DIGITS[c]] as int == c
    {
      TableRows(c);
      AlphabetRanges(BASE58_DIGITS[c]);
    }
  }

  predicate IsBase58Digit(c: char) {
    if c as int < 128 then |BASE58_DIGITS| == 128 && BASE58_DIGITS[c as int] != NOT_A_DIGIT else false
  }

  lemma DigitsAreTheAlphabet(c: char)
    ensures IsBase58Digit(c) <==> c in ALPHABET_BASE58
  {
    TableInvertsAlphabet();
    hide BASE58_DIGITS, ALPHABET_BASE58;
    if c in ALPHABET_BASE58 {
      var d :| 0 <= d < |ALPHABET_BASE58| && ALPHABET_BASE58[d] == c;
      assert BASE58_DIGITS[ALPHABET_BASE58[d] as int] == d;
    } else if IsBase58Digit(c) {
      assert false;
    }
  }

  lemma AlphabetDistinct()
    ensures Distinct(ALPHABET_BASE58)
  {
    TableInvertsAlphabet();
    hide BASE58_DIGITS, ALPHABET_BASE58;
    forall i, j | 0 <= i < j < |ALPHABET_BASE58| ensures ALPHABET_BASE58[i] != ALPHABET_BASE58[j] {
      assert BASE58_DIGITS[ALPHABET_BASE58[i] as int] == i && BASE58_DIGITS[ALPHABET_BASE58[j] as int] == j;
    }
  }

  datatype Parsed = Valid(raw: string) | InvalidDigit

  /** `FromStr` for flat raw ids. */
  method FromStr(s: string) returns (r: Parsed)
    ensures r == if forall i :: 0 <= i < |s| ==> s[i] in ALPHABET_BASE58 then Valid(s) else InvalidDigit
  {
    hide ALPHABET_BASE58, IsBase58Digit;
    for i := 0 to |s|
      invariant forall j :: 0 <= j < i ==> s[j] in ALPHABET_BASE58
    {
      DigitsAreTheAlphabet(s[i]);
      if !IsBase58Digit(s[i]) { return InvalidDigit; }
    }
    r := Valid(s);
  }

  // ---------- Fingerprints ----------

  /** The sizes along the recursion for 32 bytes. */
  lemma FingerprintShape()
    ensures EncodedLength(58, 65535, 32) == 44
  {
    hide BlockShape, SqueezedShape;
    ShapeStep(1);
    assert SqueezedShape(58, 65535, 65536) == Shape(1, 1130) by { Shrink(65535, 65536); Shrink(65535, 1130); }
    ShapeDouble(1, 0, 256, 1, 1130);
    assert SqueezedShape(58, 65535, 1276900) == Shape(1, 22016) by { Shrink(65535, 1276900); Shrink(65535, 22016); }
    ShapeDouble(2, 1, 1130, 1, 22016);
    assert SqueezedShape(58, 65535, 484704256) == Shape(3, 2485) by {
      Shrink(65535, 484704256); Shrink(65535, 8356970); Shrink(65535, 144086); Shrink(65535, 2485);
    }
    ShapeDouble(4, 3, 22016, 3, 2485);
    assert SqueezedShape(58, 65535, 6175225) == Shape(2, 1836) by {
      Shrink(65535, 6175225); Shrink(65535, 106470); Shrink(65535, 1836);
    }
    ShapeDouble(8, 9, 2485, 2, 1836);
    assert SqueezedShape(58, 65535, 3370896) == Shape(1, 58119) by { Shrink(65535, 3370896); Shrink(65535, 58119); }
    ShapeDouble(16, 20, 1836, 1, 58119);
    assert SqueezedShape(58, 2, 58119) == Shape(3, 1) by {
      Shrink(2, 58119); Shrink(2, 1003); Shrink(2, 18); Shrink(2, 1);
    }
    FinalShape(32, 41, 58119, 3);
  }

  lemma ShapeStep(n: nat)
    requires n == 1
    ensures BlockShape(58, 65535, n) == Shape(0, 256)
  {
  }

  lemma Shrink(stop: nat, base: nat)
    requires 2 <= stop
    ensures SqueezedShape(58, stop, base) ==
            if base < stop then Shape(0, base)
            else
              var r := SqueezedShape(58, stop, CeilDiv(base, 58));
              Shape(r.length + 1, r.base)
  {
  }

  lemma ShapeDouble(n: nat, length: nat, base: nat, more: nat, next: nat)
    requires 0 < n && BlockShape(58, 65535, n) == Shape(length, base)
    requires SqueezedShape(58, 65535, base * base) == Shape(more, next)
    ensures BlockShape(58, 65535, 2 * n) == Shape(2 * length + more, next)
  {
    hide SqueezedShape;
    ShapeOf(58, 65535, 2 * n);
  }

  lemma FinalShape(n: nat, length: nat, base: nat, more: nat)
    requires BlockShape(58, 65535, n) == Shape(length, base) && SqueezedShape(58, 2, base).length == more
    ensures EncodedLength(58, 65535, n) == length + more
  {
  }

  /** `DeviceFingerprint::from_data`: the 32 bytes of a digest give exactly 44 characters, all of
      which `FromStr` accepts, and different digests give different fingerprints. */
  method FingerprintOf(digest: seq<Octet>) returns (raw: string)
    requires |digest| == 32
    ensures |raw| == 44 && forall i :: 0 <= i < |raw| ==> IsBase58Digit(raw[i])
    ensures |ALPHABET_BASE58| == 58 && raw == EncodeText(ALPHABET_BASE58, LIMIT as nat, digest)
  {
    hide ALPHABET_BASE58, IsBase58Digit;
    raw := FromBytes(digest);
    FingerprintShape();
    forall i | 0 <= i < |raw| ensures IsBase58Digit(raw[i]) { DigitsAreTheAlphabet(raw[i]); }
  }

  lemma FingerprintsDiffer(x: seq<Octet>, y: seq<Octet>)
    requires |x| == |y| == 32 && x != y
    ensures |ALPHABET_BASE58| == 58 && EncodeText(ALPHABET_BASE58, LIMIT as nat, x) != EncodeText(ALPHABET_BASE58, LIMIT as nat, y)
  {
    hide ALPHABET_BASE58, EncodeText;
    AlphabetSizes();
    AlphabetDistinct();
    if EncodeText(ALPHABET_BASE58, LIMIT as nat, x) == EncodeText(ALPHABET_BASE58, LIMIT as nat, y) {
      Injective(ALPHABET_BASE58, LIMIT as nat, x, y);
    }
  }
}
