/** The mixed-radix encoding of byte strings as identifiers: what it computes on digits, and a
    decoder that shows nothing is lost. */
module IdEncoding {

  type Digits = seq<nat>

  type Octet = x: int | 0 <= x < 256

  /** Digits already written, and a remainder below its base. */
  datatype Coded = Coded(out: Digits, digit: nat, base: nat)

  function Times(x: nat, y: nat): nat { x * y }

  function Quotient(x: nat, p: nat): nat
    requires 0 < p
  {
    x / p
  }

  function Remainder(x: nat, p: nat): nat
    requires 0 < p
  {
    x % p
  }

  /** `x.div_ceil(b)`. */
  function CeilDiv(x: nat, b: nat): nat
    requires 0 < b
  {
    if x % b == 0 then x / b else x / b + 1
  }

  /** The least number of times `b` that reaches `x`. */
  lemma CeilDivLeast(x: nat, b: nat, q: nat)
    requires 0 < b
    ensures x <= Times(q, b) <==> CeilDiv(x, b) <= q
  {
    hide Times;
    Division(x, b);
    var d := x / b;
    TimesNext(d, b);
    if CeilDiv(x, b) <= q {
      TimesMonotone(CeilDiv(x, b), q, b);
    } else if x % b == 0 {
      TimesMonotone(q + 1, d, b);
      TimesNext(q, b);
    } else {
      TimesMonotone(q, d, b);
    }
  }

  lemma TimesMonotone(x: nat, y: nat, p: nat)
    requires x <= y
    ensures Times(x, p) <= Times(y, p)
  {
  }

  lemma TimesNext(x: nat, p: nat)
    ensures Times(x + 1, p) == Times(x, p) + p
  {
  }

  lemma Division(x: nat, b: nat)
    requires 0 < b
    ensures x == Times(x / b, b) + x % b && 0 <= x % b < b
  {
  }

  lemma QuotientBelow(x: nat, q: nat, b: nat)
    requires 0 < b && x < Times(q, b)
    ensures x / b < q
  {
    hide Times;
    Division(x, b);
    if x / b >= q { TimesMonotone(q, x / b, b); }
  }

  lemma CeilDivShrinks(base: nat, b: nat)
    requires 2 <= b && 2 <= base
    ensures 1 <= CeilDiv(base, b) < base
  {
    hide Times;
    Division(base, b);
    assert Times(base / b, b) >= 2 * (base / b) by { Doubling(base / b, b); }
  }

  lemma Doubling(x: nat, b: nat)
    requires 2 <= b
    ensures Times(x, b) >= 2 * x
  {
  }

  lemma DivBounds(digit: nat, base: nat, b: nat)
    requires 2 <= b && digit < base && 2 <= base
    ensures digit / b < CeilDiv(base, b) && digit == Times(digit / b, b) + digit % b
  {
    hide Times;
    Division(digit, b);
    Division(base, b);
    TimesNext(base / b, b);
    QuotientBelow(digit, if base % b == 0 then base / b else base / b + 1, b);
  }

  /** Write digits until the base falls below `stop`. */
  function Squeeze(b: nat, stop: nat, digit: nat, base: nat): Coded
    requires 2 <= b && 2 <= stop
    decreases base
  {
    if base < stop then Coded([], digit, base)
    else
      CeilDivShrinks(base, b);
      var r := Squeeze(b, stop, digit / b, CeilDiv(base, b));
      Coded([digit % b] + r.out, r.digit, r.base)
  }

  function EncodeBlock(b: nat, limit: nat, bytes: seq<Octet>): Coded
    requires 2 <= b && 2 <= limit
    decreases |bytes|
  {
    if |bytes| == 0 then Coded([], 0, 0)
    else if |bytes| == 1 then Coded([], bytes[0], 256)
    else
      var mid := |bytes| / 2;
      var first := EncodeBlock(b, limit, bytes[..mid]);
      var second := EncodeBlock(b, limit, bytes[mid..]);
      var r := Squeeze(b, limit, first.digit + Times(second.digit, first.base), Times(first.base, second.base));
      Coded(first.out + second.out + r.out, r.digit, r.base)
  }

  function Encode(b: nat, limit: nat, bytes: seq<Octet>): Digits
    requires 2 <= b && 2 <= limit
  {
    var r := EncodeBlock(b, limit, bytes);
    r.out + Squeeze(b, 2, r.digit, r.base).out
  }

  // ---------- The shape depends on the length only ----------

  datatype Shape = Shape(length: nat, base: nat)

  function SqueezedShape(b: nat, stop: nat, base: nat): Shape
    requires 2 <= b && 2 <= stop
    decreases base
  {
    if base < stop then Shape(0, base)
    else
      CeilDivShrinks(base, b);
      var r := SqueezedShape(b, stop, CeilDiv(base, b));
      Shape(r.length + 1, r.base)
  }

  function BlockShape(b: nat, limit: nat, n: nat): Shape
    requires 2 <= b && 2 <= limit
  {
    if n == 0 then Shape(0, 0)
    else if n == 1 then Shape(0, 256)
    else
      var first, second := BlockShape(b, limit, n / 2), BlockShape(b, limit, n - n / 2);
      var r := SqueezedShape(b, limit, Times(first.base, second.base));
      Shape(first.length + second.length + r.length, r.base)
  }

  function EncodedLength(b: nat, limit: nat, n: nat): nat
    requires 2 <= b && 2 <= limit
  {
    var r := BlockShape(b, limit, n);
    r.length + SqueezedShape(b, 2, r.base).length
  }

  // ---------- The decoder ----------

  function Unsqueeze(b: nat, out: Digits, digit: nat): nat {
    if out == [] then digit else out[0] + Times(Unsqueeze(b, out[1..], digit), b)
  }

  function DecodeBlock(b: nat, limit: nat, n: nat, out: Digits, digit: nat): seq<int>
    requires 2 <= b && 2 <= limit
    decreases n
  {
    if n == 0 then []
    else if n == 1 then [digit]
    else
      var first, second := BlockShape(b, limit, n / 2), BlockShape(b, limit, n - n / 2);
      if |out| < first.length + second.length || first.base == 0 then []
      else
        var whole := Unsqueeze(b, out[first.length + second.length..], digit);
        DecodeBlock(b, limit, n / 2, out[..first.length], Remainder(whole, first.base))
        + DecodeBlock(b, limit, n - n / 2, out[first.length..first.length + second.length], Quotient(whole, first.base))
  }

  function Decode(b: nat, limit: nat, n: nat, digits: Digits): seq<int>
    requires 2 <= b && 2 <= limit
  {
    var r := BlockShape(b, limit, n);
    if |digits| < r.length then [] else DecodeBlock(b, limit, n, digits[..r.length], Unsqueeze(b, digits[r.length..], 0))
  }

  // ---------- Proofs ----------

  predicate AllBelow(digits: Digits, b: nat) { forall i :: 0 <= i < |digits| ==> digits[i] < b }

  lemma {:induction false} SqueezeFacts(b: nat, stop: nat, digit: nat, base: nat)
    requires 2 <= b && 2 <= stop && digit < base
    ensures var r := Squeeze(b, stop, digit, base);
            && r.digit < r.base < stop && AllBelow(r.out, b)
            && Shape(|r.out|, r.base) == SqueezedShape(b, stop, base)
            && Unsqueeze(b, r.out, r.digit) == digit
    decreases base
  {
    hide Times, CeilDiv;
    if base >= stop {
      DivBounds(digit, base, b);
      Division(digit, b);
      CeilDivShrinks(base, b);
      SqueezeFacts(b, stop, digit / b, CeilDiv(base, b));
      var r := Squeeze(b, stop, digit, base);
      assert r.out[1..] == Squeeze(b, stop, digit / b, CeilDiv(base, b)).out;
    }
  }

  /** Combining two remainders stays below the product of their bases, and can be undone. */
  lemma Combine(x: nat, p: nat, y: nat, q: nat)
    requires x < p && y < q
    ensures x + Times(y, p) < Times(p, q) && Remainder(x + Times(y, p), p) == x && Quotient(x + Times(y, p), p) == y
  {
    assert Times(p, q) == Times(q, p);
    hide Times;
    TimesMonotone(y + 1, q, p);
    TimesNext(y, p);
    Unique(x + Times(y, p), p, y, x);
  }

  lemma Unique(n: nat, p: nat, y: nat, x: nat)
    requires x < p && n == x + Times(y, p)
    ensures n % p == x && n / p == y
  {
    hide Times;
    Division(n, p);
    if n / p < y {
      TimesNext(n / p, p);
      TimesMonotone(n / p + 1, y, p);
    } else if n / p > y {
      TimesNext(y, p);
      TimesMonotone(y + 1, n / p, p);
    }
  }

  /** Every level of the recursion keeps its remainder below its base, its base below the limit (a
      single byte has base 256), and its digits below the alphabet's size; its shape depends on the
      number of bytes only; and it can be undone. */
  lemma {:induction false} BlockFacts(b: nat, limit: nat, bytes: seq<Octet>)
    requires 2 <= b && 2 <= limit
    ensures var r := EncodeBlock(b, limit, bytes);
            && (bytes != [] ==> r.digit < r.base && (r.base < limit || r.base == 256))
            && (bytes == [] ==> r.digit == r.base == 0)
            && AllBelow(r.out, b)
            && Shape(|r.out|, r.base) == BlockShape(b, limit, |bytes|)
            && DecodeBlock(b, limit, |bytes|, r.out, r.digit) == bytes
    decreases |bytes|
  {
    hide *;
    SmallFacts(b, limit, bytes);
    if |bytes| == 1 {
      assert bytes == [bytes[0]];
    } else if |bytes| > 1 {
      var mid := |bytes| / 2;
      BlockFacts(b, limit, bytes[..mid]);
      BlockFacts(b, limit, bytes[mid..]);
      Join(b, limit, bytes, EncodeBlock(b, limit, bytes[..mid]), EncodeBlock(b, limit, bytes[mid..]));
    }
  }

  lemma SmallFacts(b: nat, limit: nat, bytes: seq<Octet>)
    requires 2 <= b && 2 <= limit
    ensures |bytes| <= 1 ==>
              var r := EncodeBlock(b, limit, bytes);
              && (if bytes == [] then r == Coded([], 0, 0) else r == Coded([], bytes[0], 256))
              && AllBelow(r.out, b) && Shape(|r.out|, r.base) == BlockShape(b, limit, |bytes|)
              && DecodeBlock(b, limit, |bytes|, r.out, r.digit) == bytes
  {
  }

  lemma Join(b: nat, limit: nat, bytes: seq<Octet>, first: Coded, second: Coded)
    requires 2 <= b && 2 <= limit && 2 <= |bytes|
    requires first == EncodeBlock(b, limit, bytes[..|bytes| / 2]) && second == EncodeBlock(b, limit, bytes[|bytes| / 2..])
    requires first.digit < first.base && second.digit < second.base && AllBelow(first.out, b) && AllBelow(second.out, b)
    requires Shape(|first.out|, first.base) == BlockShape(b, limit, |bytes| / 2)
    requires Shape(|second.out|, second.base) == BlockShape(b, limit, |bytes| - |bytes| / 2)
    requires DecodeBlock(b, limit, |bytes| / 2, first.out, first.digit) == bytes[..|bytes| / 2]
    requires DecodeBlock(b, limit, |bytes| - |bytes| / 2, second.out, second.digit) == bytes[|bytes| / 2..]
    ensures var r := EncodeBlock(b, limit, bytes);
            && r.digit < r.base < limit && AllBelow(r.out, b)
            && Shape(|r.out|, r.base) == BlockShape(b, limit, |bytes|)
            && DecodeBlock(b, limit, |bytes|, r.out, r.digit) == bytes
  {
    hide *;
    var whole := first.digit + Times(second.digit, first.base);
    Combine(first.digit, first.base, second.digit, second.base);
    SqueezeFacts(b, limit, whole, Times(first.base, second.base));
    var s := Squeeze(b, limit, whole, Times(first.base, second.base));
    BlockOf(b, limit, bytes, first, second);
    AllBelowConcat(first.out, second.out, b);
    AllBelowConcat(first.out + second.out, s.out, b);
    ShapeOf(b, limit, |bytes|);
    SplitDecode(b, limit, |bytes|, first.out, second.out, s.out, s.digit);
    assert bytes == bytes[..|bytes| / 2] + bytes[|bytes| / 2..];
  }

  lemma BlockOf(b: nat, limit: nat, bytes: seq<Octet>, first: Coded, second: Coded)
    requires 2 <= b && 2 <= limit && 2 <= |bytes|
    requires first == EncodeBlock(b, limit, bytes[..|bytes| / 2]) && second == EncodeBlock(b, limit, bytes[|bytes| / 2..])
    ensures var s := Squeeze(b, limit, first.digit + Times(second.digit, first.base), Times(first.base, second.base));
            EncodeBlock(b, limit, bytes) == Coded(first.out + second.out + s.out, s.digit, s.base)
  {
    hide Squeeze, Times;
  }

  lemma ShapeOf(b: nat, limit: nat, n: nat)
    requires 2 <= b && 2 <= limit && 2 <= n
    ensures var first, second := BlockShape(b, limit, n / 2), BlockShape(b, limit, n - n / 2);
            var r := SqueezedShape(b, limit, Times(first.base, second.base));
            BlockShape(b, limit, n) == Shape(first.length + second.length + r.length, r.base)
  {
    hide SqueezedShape, Times;
  }

  lemma AllBelowConcat(x: Digits, y: Digits, b: nat)
    requires AllBelow(x, b) && AllBelow(y, b)
    ensures AllBelow(x + y, b)
  {
  }

  lemma SplitDecode(b: nat, limit: nat, n: nat, o1: Digits, o2: Digits, o3: Digits, digit: nat)
    requires 2 <= b && 2 <= limit && 2 <= n
    requires |o1| == BlockShape(b, limit, n / 2).length && |o2| == BlockShape(b, limit, n - n / 2).length
    requires 0 < BlockShape(b, limit, n / 2).base
    ensures var whole, p := Unsqueeze(b, o3, digit), BlockShape(b, limit, n / 2).base;
            DecodeBlock(b, limit, n, o1 + o2 + o3, digit)
            == DecodeBlock(b, limit, n / 2, o1, Remainder(whole, p)) + DecodeBlock(b, limit, n - n / 2, o2, Quotient(whole, p))
  {
    hide Unsqueeze, BlockShape, Quotient, Remainder, Times;
    var out := o1 + o2 + o3;
    assert out[..|o1|] == o1 && out[|o1|..|o1| + |o2|] == o2 && out[|o1| + |o2|..] == o3;
  }

  /** The decoder recovers the bytes, all digits are digits of the alphabet, and the length of the
      output depends on the length of the input only. */
  lemma EncodeDecode(b: nat, limit: nat, bytes: seq<Octet>)
    requires 2 <= b && 2 <= limit
    ensures Decode(b, limit, |bytes|, Encode(b, limit, bytes)) == bytes
    ensures AllBelow(Encode(b, limit, bytes), b)
    ensures |Encode(b, limit, bytes)| == EncodedLength(b, limit, |bytes|)
  {
    hide Squeeze, Unsqueeze, SqueezedShape, EncodeBlock, DecodeBlock, BlockShape;
    BlockFacts(b, limit, bytes);
    var r := EncodeBlock(b, limit, bytes);
    FinalFacts(b, r.digit, r.base);
    var digits := Encode(b, limit, bytes);
    var s := Squeeze(b, 2, r.digit, r.base);
    assert digits[..|r.out|] == r.out && digits[|r.out|..] == s.out;
    AllBelowConcat(r.out, s.out, b);
  }

  /** The last remainder is written out completely. */
  lemma FinalFacts(b: nat, digit: nat, base: nat)
    requires 2 <= b && (digit < base || digit == base == 0)
    ensures var s := Squeeze(b, 2, digit, base);
            AllBelow(s.out, b) && |s.out| == SqueezedShape(b, 2, base).length && Unsqueeze(b, s.out, 0) == digit
  {
    if digit < base { SqueezeFacts(b, 2, digit, base); }
  }

  // ---------- Characters ----------

  function Spell(alphabet: seq<char>, digits: Digits): string
    requires AllBelow(digits, |alphabet|)
  {
    seq(|digits|, i requires 0 <= i < |digits| => alphabet[digits[i]])
  }

  predicate Distinct(alphabet: seq<char>) {
    forall i, j :: 0 <= i < j < |alphabet| ==> alphabet[i] != alphabet[j]
  }

  function EncodeText(alphabet: seq<char>, limit: nat, bytes: seq<Octet>): (text: string)
    requires 2 <= |alphabet| && 2 <= limit
    ensures |text| == EncodedLength(|alphabet|, limit, |bytes|)
    ensures forall i :: 0 <= i < |text| ==> text[i] in alphabet
  {
    EncodeDecode(|alphabet|, limit, bytes);
    Spell(alphabet, Encode(|alphabet|, limit, bytes))
  }

  /** With an alphabet of distinct characters, inputs of one length are encoded apart. */
  lemma Injective(alphabet: seq<char>, limit: nat, a: seq<Octet>, b: seq<Octet>)
    requires 2 <= |alphabet| && 2 <= limit && Distinct(alphabet) && |a| == |b|
    requires EncodeText(alphabet, limit, a) == EncodeText(alphabet, limit, b)
    ensures a == b
  {
    EncodeDecode(|alphabet|, limit, a);
    EncodeDecode(|alphabet|, limit, b);
    var x, y := Encode(|alphabet|, limit, a), Encode(|alphabet|, limit, b);
    assert |x| == |y|;
    forall i | 0 <= i < |x| ensures x[i] == y[i] {
      assert EncodeText(alphabet, limit, a)[i] == EncodeText(alphabet, limit, b)[i];
    }
    assert x == y;
  }
}
