/** The frame codec of the multiplexer: one tag byte, then fixed-size fields, then at most one
    dynamically sized field. Offsets and minimum sizes are computed from the field list, as the
    frame macro does, and the eleven frame types are instances of the generic layout. */
module FrameCodec {
  import opened Wrappers

  type Byte = x: int | 0 <= x < 256

  type Bytes = seq<Byte>

  /** Field types with an encoding; only `Dynamic` has no fixed size. */
  datatype FieldType = Id64 | Word32 | Array(n: nat) | Dynamic

  datatype Value = Num(v: nat) | Blob(bs: Bytes)

  type Layout = seq<FieldType>

  function FieldSize(t: FieldType): Option<nat> {
    match t
    case Id64 => Some(8)
    case Word32 => Some(4)
    case Array(n) => Some(n)
    case Dynamic => None
  }

  function AddOptionalSizes(left: Option<nat>, right: Option<nat>): Option<nat> {
    if left.Some? && right.Some? then Some(left.value + right.value) else None
  }

  /** Offset of field `i`; at `i == |l|` it is the size of the whole frame. */
  function Offset(l: Layout, i: nat): Option<nat>
    requires i <= |l|
  {
    if i == 0 then Some(1) else AddOptionalSizes(Offset(l, i - 1), FieldSize(l[i - 1]))
  }

  /** A dynamically sized field may only come last. */
  ghost predicate WellFormed(l: Layout) {
    forall i :: 0 <= i < |l| - 1 ==> l[i] != Dynamic
  }

  /** First byte of field `i` when every earlier field is fixed; a dynamic field has width 0 here. */
  ghost function Start(l: Layout, i: nat): nat
    requires i <= |l|
  {
    if i == 0 then 1 else Start(l, i - 1) + Width(l[i - 1])
  }

  ghost function Width(t: FieldType): nat {
    if FieldSize(t).Some? then FieldSize(t).value else 0
  }

  lemma {:induction false} OffsetIsStart(l: Layout, i: nat)
    requires WellFormed(l) && i <= |l|
    ensures Offset(l, i) == if i > 0 && l[i - 1] == Dynamic then None else Some(Start(l, i))
  {
    if i > 0 { OffsetIsStart(l, i - 1); }
  }

  lemma {:induction false} StartMonotone(l: Layout, i: nat, j: nat)
    requires i <= j <= |l|
    ensures Start(l, i) <= Start(l, j)
  {
    if i < j { StartMonotone(l, i, j - 1); }
  }

  function FieldOffset(l: Layout, i: nat): (r: nat)
    requires WellFormed(l) && i < |l|
    ensures r == Start(l, i)
  {
    OffsetIsStart(l, i);
    Offset(l, i).value
  }

  /** The size of the frame, or the offset of its last field when that field is dynamic. */
  function MinFrameSize(l: Layout): (r: nat)
    requires WellFormed(l)
    ensures r == Start(l, |l|) >= 1
  {
    StartMonotone(l, 0, |l|);
    OffsetIsStart(l, |l|);
    var size := Offset(l, |l|);
    if size.Some? then size.value else FieldOffset(l, |l| - 1)
  }

  // ---------- Field values ----------

  function ToBigEndian(v: nat, n: nat): (bs: Bytes)
    ensures |bs| == n
  {
    if n == 0 then [] else ToBigEndian(v / 256, n - 1) + [v % 256]
  }

  function FromBigEndian(bs: Bytes): nat {
    if bs == [] then 0 else FromBigEndian(bs[..|bs| - 1]) * 256 + bs[|bs| - 1]
  }

  ghost function Power256(n: nat): nat {
    if n == 0 then 1 else 256 * Power256(n - 1)
  }

  lemma {:induction false} BigEndianRoundTrip(v: nat, n: nat)
    requires v < Power256(n)
    ensures FromBigEndian(ToBigEndian(v, n)) == v
  {
    if n > 0 {
      BigEndianRoundTrip(v / 256, n - 1);
      var bs := ToBigEndian(v, n);
      assert bs[..|bs| - 1] == ToBigEndian(v / 256, n - 1);
    }
  }

  predicate Fits(t: FieldType, v: Value) {
    match t
    case Id64 => v.Num? && v.v < 0x1_0000_0000_0000_0000
    case Word32 => v.Num? && v.v < 0x1_0000_0000
    case Array(n) => v.Blob? && |v.bs| == n
    case Dynamic => v.Blob?
  }

  predicate AllFit(l: Layout, vs: seq<Value>) {
    |vs| == |l| && forall i :: 0 <= i < |l| ==> Fits(l[i], vs[i])
  }

  function EncodeField(t: FieldType, v: Value): (bs: Bytes)
    requires Fits(t, v)
    ensures FieldSize(t).Some? ==> |bs| == FieldSize(t).value
  {
    match t
    case Id64 => ToBigEndian(v.v, 8)
    case Word32 => ToBigEndian(v.v, 4)
    case Array(n) => v.bs
    case Dynamic => v.bs
  }

  function DecodeField(t: FieldType, bs: Bytes): Value {
    if t == Id64 || t == Word32 then Num(FromBigEndian(bs)) else Blob(bs)
  }

  lemma FieldRoundTrip(t: FieldType, v: Value)
    requires Fits(t, v)
    ensures DecodeField(t, EncodeField(t, v)) == v
  {
    assert Power256(4) == 0x1_0000_0000 && Power256(8) == 0x1_0000_0000_0000_0000 by {
      assert Power256(4) == 256 * (256 * (256 * (256 * Power256(0))));
      assert Power256(8) == 256 * (256 * (256 * (256 * Power256(4))));
    }
    match t
    case Id64 => BigEndianRoundTrip(v.v, 8);
    case Word32 => BigEndianRoundTrip(v.v, 4);
    case _ =>
  }

  // ---------- Frames of an arbitrary layout ----------

  /** The encoded values of the first `n` fields. */
  ghost function Body(l: Layout, vs: seq<Value>, n: nat): Bytes
    requires AllFit(l, vs) && n <= |l|
  {
    if n == 0 then [] else Body(l, vs, n - 1) + EncodeField(l[n - 1], vs[n - 1])
  }

  lemma {:induction false} BodyLength(l: Layout, vs: seq<Value>, n: nat)
    requires WellFormed(l) && AllFit(l, vs) && n <= |l|
    ensures n < |l| || n == 0 || l[n - 1] != Dynamic ==> 1 + |Body(l, vs, n)| == Start(l, n)
    ensures 1 + |Body(l, vs, n)| >= Start(l, n)
  {
    hide EncodeField;
    if n > 0 {
      BodyLength(l, vs, n - 1);
      assert |Body(l, vs, n)| == |Body(l, vs, n - 1)| + |EncodeField(l[n - 1], vs[n - 1])|;
    }
  }

  ghost predicate Holds(bytes: Bytes, at: nat, e: Bytes) {
    at + |e| <= |bytes| && bytes[at..at + |e|] == e
  }

  lemma HoldsInPrefix(bytes: Bytes, more: Bytes, at: nat, e: Bytes)
    requires Holds(bytes, at, e)
    ensures Holds(bytes + more, at, e)
  {
    assert (bytes + more)[at..at + |e|] == bytes[at..at + |e|];
  }

  lemma HoldsAtEnd(bytes: Bytes, e: Bytes)
    ensures Holds(bytes + e, |bytes|, e)
  {
    assert (bytes + e)[|bytes|..|bytes| + |e|] == e;
  }

  lemma HoldsAfterTag(tag: Byte, bytes: Bytes, at: nat, e: Bytes)
    requires Holds(bytes, at, e)
    ensures Holds([tag] + bytes, at + 1, e)
  {
    assert ([tag] + bytes)[at + 1..at + 1 + |e|] == bytes[at..at + |e|];
  }

  lemma BodySliceLast(l: Layout, vs: seq<Value>, i: nat)
    requires WellFormed(l) && AllFit(l, vs) && i < |l|
    ensures Start(l, i) >= 1 && Holds(Body(l, vs, i + 1), Start(l, i) - 1, EncodeField(l[i], vs[i]))
  {
    StartMonotone(l, 0, i);
    BodyLength(l, vs, i);
    hide Holds;
    HoldsAtEnd(Body(l, vs, i), EncodeField(l[i], vs[i]));
  }

  lemma {:induction false} BodySlice(l: Layout, vs: seq<Value>, i: nat, n: nat)
    requires WellFormed(l) && AllFit(l, vs) && i < n <= |l|
    ensures Start(l, i) >= 1 && Holds(Body(l, vs, n), Start(l, i) - 1, EncodeField(l[i], vs[i]))
  {
    hide Holds, Start, EncodeField;
    if i + 1 == n {
      BodySliceLast(l, vs, i);
    } else {
      BodySlice(l, vs, i, n - 1);
      HoldsInPrefix(Body(l, vs, n - 1), EncodeField(l[n - 1], vs[n - 1]), Start(l, i) - 1, EncodeField(l[i], vs[i]));
    }
  }

  method New(tag: Byte, l: Layout, vs: seq<Value>) returns (bytes: Bytes)
    requires WellFormed(l) && AllFit(l, vs)
    ensures bytes == [tag] + Body(l, vs, |l|)
    ensures |bytes| >= MinFrameSize(l)
  {
    bytes := [tag];
    for i := 0 to |l|
      invariant bytes == [tag] + Body(l, vs, i)
    {
      bytes := bytes + EncodeField(l[i], vs[i]);
    }
    BodyLength(l, vs, |l|);
  }

  /** The bytes of field `i`; the bounds hold for every byte string the parser lets through. */
  function Raw(l: Layout, bytes: Bytes, i: nat): Bytes
    requires WellFormed(l) && i < |l| && MinFrameSize(l) <= |bytes|
  {
    var offset := FieldOffset(l, i);
    StartMonotone(l, i + 1, |l|);
    match FieldSize(l[i])
    case Some(fixed) => bytes[offset..offset + fixed]
    case None => bytes[offset..]
  }

  function Get(l: Layout, bytes: Bytes, i: nat): Value
    requires WellFormed(l) && i < |l| && MinFrameSize(l) <= |bytes|
  {
    DecodeField(l[i], Raw(l, bytes, i))
  }

  /** `r` is `bytes` with `e` written at field `i`; a dynamic field is truncated first. */
  ghost predicate Written(l: Layout, bytes: Bytes, i: nat, e: Bytes, r: Bytes)
    requires WellFormed(l) && i < |l| && MinFrameSize(l) <= |bytes|
  {
    StartMonotone(l, 0, i);
    StartMonotone(l, i + 1, |l|);
    var s := Start(l, i);
    if l[i] == Dynamic then r == bytes[..s] + e
    else |e| == Width(l[i]) && r == bytes[..s] + e + bytes[s + |e|..]
  }

  lemma PrefixSlice(r: Bytes, bytes: Bytes, s: nat, a: nat, b: nat)
    requires a <= b <= s <= |r| && s <= |bytes| && r[..s] == bytes[..s]
    ensures r[a..b] == bytes[a..b]
  {
    assert r[a..b] == r[..s][a..b] && bytes[a..b] == bytes[..s][a..b];
  }

  lemma SplicedSlice(bytes: Bytes, s: nat, e: Bytes, a: nat, b: nat)
    requires s + |e| <= |bytes| && a <= b <= |bytes| && (b <= s || s + |e| <= a)
    ensures (bytes[..s] + e + bytes[s + |e|..])[a..b] == bytes[a..b]
  {
  }

  lemma WrittenRawSelf(l: Layout, bytes: Bytes, i: nat, e: Bytes, r: Bytes)
    requires WellFormed(l) && i < |l| && MinFrameSize(l) <= |bytes|
    requires Written(l, bytes, i, e, r)
    ensures MinFrameSize(l) <= |r| && Raw(l, r, i) == e
  {
    StartMonotone(l, i + 1, |l|);
    var s := Start(l, i);
    assert r[s..s + |e|] == e;
  }

  lemma WrittenRawBefore(l: Layout, bytes: Bytes, i: nat, e: Bytes, r: Bytes, j: nat)
    requires WellFormed(l) && j < i < |l| && MinFrameSize(l) <= |bytes| && MinFrameSize(l) <= |r|
    requires Written(l, bytes, i, e, r)
    ensures Raw(l, r, j) == Raw(l, bytes, j)
  {
    StartMonotone(l, j + 1, i);
    StartMonotone(l, i, |l|);
    var s, t, w := Start(l, i), Start(l, j), Width(l[j]);
    assert t + w <= s <= |bytes| && r[..s] == bytes[..s];
    hide Start, Offset, FieldOffset, MinFrameSize, Written;
    PrefixSlice(r, bytes, s, t, t + w);
  }

  lemma WrittenRawAfter(l: Layout, bytes: Bytes, i: nat, e: Bytes, r: Bytes, j: nat)
    requires WellFormed(l) && i < j < |l| && MinFrameSize(l) <= |bytes| && MinFrameSize(l) <= |r|
    requires Written(l, bytes, i, e, r)
    ensures Raw(l, r, j) == Raw(l, bytes, j)
  {
    hide Start, Offset, FieldOffset, MinFrameSize, Written, Width;
    WrittenGap(l, bytes, i, e, r, j);
    var s, t, w := Start(l, i), Start(l, j), Width(l[j]);
    SplicedSlice(bytes, s, e, t, t + w);
    SplicedSlice(bytes, s, e, t, |bytes|);
    WidthOf(l[j]);
  }

  lemma WidthOf(t: FieldType)
    ensures FieldSize(t) == if t == Dynamic then None else Some(Width(t))
  {
  }

  /** A later field starts after the one written, which has fixed size. */
  lemma WrittenGap(l: Layout, bytes: Bytes, i: nat, e: Bytes, r: Bytes, j: nat)
    requires WellFormed(l) && i < j < |l| && MinFrameSize(l) <= |bytes| && Written(l, bytes, i, e, r)
    ensures var s, t, w := Start(l, i), Start(l, j), Width(l[j]);
            s + |e| <= t && t + w <= |bytes| == |r| && r == bytes[..s] + e + bytes[s + |e|..]
  {
    StartMonotone(l, i + 1, j);
    StartMonotone(l, j + 1, |l|);
  }

  method Set(l: Layout, bytes: Bytes, i: nat, v: Value) returns (r: Bytes)
    requires WellFormed(l) && i < |l| && MinFrameSize(l) <= |bytes| && Fits(l[i], v)
    ensures MinFrameSize(l) <= |r| && r[0] == bytes[0]
    ensures forall j :: 0 <= j < |l| ==> Get(l, r, j) == if j == i then v else Get(l, bytes, j)
    ensures l[i] != Dynamic ==> |r| == |bytes|
  {
    var offset := FieldOffset(l, i);
    var e := EncodeField(l[i], v);
    StartMonotone(l, 0, i);
    StartMonotone(l, i + 1, |l|);
    if l[i] != Dynamic {
      r := bytes[..offset] + e + bytes[offset + |e|..];
    } else {
      r := bytes[..offset] + e;
    }
    FieldRoundTrip(l[i], v);
    WrittenRawSelf(l, bytes, i, e, r);
    forall j | 0 <= j < |l| && j != i ensures Raw(l, r, j) == Raw(l, bytes, j) {
      if j < i { WrittenRawBefore(l, bytes, i, e, r, j); } else { WrittenRawAfter(l, bytes, i, e, r, j); }
    }
  }

  lemma RawHolds(l: Layout, bytes: Bytes, i: nat, e: Bytes)
    requires WellFormed(l) && i < |l| && MinFrameSize(l) <= |bytes| && Holds(bytes, Start(l, i), e)
    requires FieldSize(l[i]) == Some(|e|) || (l[i] == Dynamic && |bytes| == Start(l, i) + |e|)
    ensures Raw(l, bytes, i) == e
  {
  }

  lemma EncodedSize(t: FieldType, v: Value)
    requires Fits(t, v)
    ensures t != Dynamic ==> FieldSize(t) == Some(|EncodeField(t, v)|)
  {
  }

  lemma RawAfterNew(tag: Byte, l: Layout, vs: seq<Value>, i: nat)
    requires WellFormed(l) && AllFit(l, vs) && i < |l|
    requires MinFrameSize(l) <= |[tag] + Body(l, vs, |l|)|
    ensures Raw(l, [tag] + Body(l, vs, |l|), i) == EncodeField(l[i], vs[i])
  {
    hide EncodeField, Start, Holds, MinFrameSize, FieldOffset;
    var e := EncodeField(l[i], vs[i]);
    var body := Body(l, vs, |l|);
    BodySlice(l, vs, i, |l|);
    HoldsAfterTag(tag, body, Start(l, i) - 1, e);
    if l[i] == Dynamic {
      BodyLength(l, vs, i);
      assert body == Body(l, vs, i) + e;
    }
    EncodedSize(l[i], vs[i]);
    RawHolds(l, [tag] + body, i, e);
  }

  function GetAll(l: Layout, bytes: Bytes): seq<Value>
    requires WellFormed(l) && MinFrameSize(l) <= |bytes|
  {
    seq(|l|, i requires 0 <= i < |l| => Get(l, bytes, i))
  }

  /** Every getter of a freshly built frame returns the value the constructor was given. */
  lemma GetAfterNew(tag: Byte, l: Layout, vs: seq<Value>)
    requires WellFormed(l) && AllFit(l, vs)
    ensures MinFrameSize(l) <= |[tag] + Body(l, vs, |l|)|
    ensures GetAll(l, [tag] + Body(l, vs, |l|)) == vs
  {
    BodyLength(l, vs, |l|);
    var bytes := [tag] + Body(l, vs, |l|);
    forall i | 0 <= i < |l| ensures Get(l, bytes, i) == vs[i] {
      RawAfterNew(tag, l, vs, i);
      FieldRoundTrip(l[i], vs[i]);
    }
  }

  // ---------- The eleven frame types ----------

  datatype Frame =
    | Hello(magic: Bytes, info: Bytes)
    | ConnectionClose(reason: Bytes)
    | Request(sender: nat, frames: nat, bytes: nat, endpoint: Bytes)
    | Accept(receiver: nat, sender: nat, frames: nat, bytes: nat)
    | Reject(receiver: nat, reason: Bytes)
    | Data(receiver: nat, payload: Bytes)
    | Adjust(receiver: nat, frames: nat, bytes: nat)
    | Close(receiver: nat, reason: Bytes)
    | Closed(receiver: nat, reason: Bytes)
    | Ping
    | Pong

  function LayoutOf(tag: Byte): (r: Option<Layout>)
    ensures r.Some? ==> WellFormed(r.value)
  {
    if tag == 0x00 then Some([Array(16), Dynamic])
    else if tag == 0xFF then Some([Dynamic])
    else if tag == 0x10 then Some([Id64, Word32, Word32, Dynamic])
    else if tag == 0x11 then Some([Id64, Id64, Word32, Word32])
    else if tag == 0x12 then Some([Id64, Dynamic])
    else if tag == 0x13 then Some([Id64, Dynamic])
    else if tag == 0x14 then Some([Id64, Word32, Word32])
    else if tag == 0x15 then Some([Id64, Dynamic])
    else if tag == 0x17 then Some([Id64, Dynamic])
    else if tag == 0x20 || tag == 0x21 then Some([])
    else None
  }

  function TagOf(f: Frame): Byte {
    match f
    case Hello(_, _) => 0x00
    case ConnectionClose(_) => 0xFF
    case Request(_, _, _, _) => 0x10
    case Accept(_, _, _, _) => 0x11
    case Reject(_, _) => 0x12
    case Data(_, _) => 0x13
    case Adjust(_, _, _) => 0x14
    case Close(_, _) => 0x15
    case Closed(_, _) => 0x17
    case Ping => 0x20
    case Pong => 0x21
  }

  function ValuesOf(f: Frame): seq<Value> {
    match f
    case Hello(magic, info) => [Blob(magic), Blob(info)]
    case ConnectionClose(reason) => [Blob(reason)]
    case Request(sender, frames, bytes, endpoint) => [Num(sender), Num(frames), Num(bytes), Blob(endpoint)]
    case Accept(receiver, sender, frames, bytes) => [Num(receiver), Num(sender), Num(frames), Num(bytes)]
    case Reject(receiver, reason) => [Num(receiver), Blob(reason)]
    case Data(receiver, payload) => [Num(receiver), Blob(payload)]
    case Adjust(receiver, frames, bytes) => [Num(receiver), Num(frames), Num(bytes)]
    case Close(receiver, reason) => [Num(receiver), Blob(reason)]
    case Closed(receiver, reason) => [Num(receiver), Blob(reason)]
    case Ping => []
    case Pong => []
  }

  /** The field values are within the widths of their Rust types. */
  ghost predicate Encodable(f: Frame) {
    LayoutOf(TagOf(f)).Some? && AllFit(LayoutOf(TagOf(f)).value, ValuesOf(f))
  }

  datatype Parsed = Parsed(frame: Frame) | InvalidLength(expected: nat) | InvalidTag(tag: Byte)

  /** Check tag and length only, then read every field through its getter. */
  function Parse(bytes: Bytes): Parsed {
    if bytes == [] then InvalidLength(1)
    else match LayoutOf(bytes[0])
      case None => InvalidTag(bytes[0])
      case Some(l) =>
        if |bytes| < MinFrameSize(l) then InvalidLength(MinFrameSize(l))
        else Parsed(FromValues(bytes[0], l, GetAll(l, bytes)))
  }

  function NumOf(v: Value): nat { if v.Num? then v.v else 0 }

  function BlobOf(v: Value): Bytes { if v.Blob? then v.bs else [] }

  function FromValues(tag: Byte, l: Layout, vs: seq<Value>): Frame
    requires LayoutOf(tag) == Some(l) && |vs| == |l|
  {
    if tag == 0x00 then Hello(BlobOf(vs[0]), BlobOf(vs[1]))
    else if tag == 0xFF then ConnectionClose(BlobOf(vs[0]))
    else if tag == 0x10 then Request(NumOf(vs[0]), NumOf(vs[1]), NumOf(vs[2]), BlobOf(vs[3]))
    else if tag == 0x11 then Accept(NumOf(vs[0]), NumOf(vs[1]), NumOf(vs[2]), NumOf(vs[3]))
    else if tag == 0x12 then Reject(NumOf(vs[0]), BlobOf(vs[1]))
    else if tag == 0x13 then Data(NumOf(vs[0]), BlobOf(vs[1]))
    else if tag == 0x14 then Adjust(NumOf(vs[0]), NumOf(vs[1]), NumOf(vs[2]))
    else if tag == 0x15 then Close(NumOf(vs[0]), BlobOf(vs[1]))
    else if tag == 0x17 then Closed(NumOf(vs[0]), BlobOf(vs[1]))
    else if tag == 0x20 then Ping
    else Pong
  }

  ghost function Encode(f: Frame): Bytes
    requires Encodable(f)
  {
    [TagOf(f)] + Body(LayoutOf(TagOf(f)).value, ValuesOf(f), |ValuesOf(f)|)
  }

  lemma ValuesDetermineFrame(f: Frame)
    requires Encodable(f)
    ensures FromValues(TagOf(f), LayoutOf(TagOf(f)).value, ValuesOf(f)) == f
  {
  }

  /** Parsing what the constructor wrote gives back the frame type and every field. */
  lemma ParseEncode(f: Frame)
    requires Encodable(f)
    ensures Parse(Encode(f)) == Parsed(f)
  {
    GetAfterNew(TagOf(f), LayoutOf(TagOf(f)).value, ValuesOf(f));
    ValuesDetermineFrame(f);
  }

  /** Length of an encoded frame, which the outgoing queue budgets by. */
  function FrameLength(f: Frame): nat {
    match f
    case Hello(magic, info) => 1 + |magic| + |info|
    case ConnectionClose(reason) => 1 + |reason|
    case Request(_, _, _, endpoint) => 17 + |endpoint|
    case Accept(_, _, _, _) => 25
    case Reject(_, reason) => 9 + |reason|
    case Data(_, payload) => 9 + |payload|
    case Adjust(_, _, _) => 17
    case Close(_, reason) => 9 + |reason|
    case Closed(_, reason) => 9 + |reason|
    case Ping => 1
    case Pong => 1
  }

  ghost function EncodedWidth(v: Value, t: FieldType): nat {
    if v.Blob? then |v.bs| else Width(t)
  }

  ghost function PrefixWidth(l: Layout, vs: seq<Value>, n: nat): nat
    requires n <= |l| == |vs|
  {
    if n == 0 then 0 else PrefixWidth(l, vs, n - 1) + EncodedWidth(vs[n - 1], l[n - 1])
  }

  lemma {:induction false} BodyWidth(l: Layout, vs: seq<Value>, n: nat)
    requires AllFit(l, vs) && n <= |l|
    ensures |Body(l, vs, n)| == PrefixWidth(l, vs, n)
  {
    if n > 0 { BodyWidth(l, vs, n - 1); }
  }

  /** The width of a field that may not be there. */
  ghost function WidthAt(l: Layout, vs: seq<Value>, i: nat): nat
    requires |l| == |vs|
  {
    if i < |l| then EncodedWidth(vs[i], l[i]) else 0
  }

  lemma FourWidths(l: Layout, vs: seq<Value>)
    requires |l| == |vs| <= 4
    ensures PrefixWidth(l, vs, |l|) == WidthAt(l, vs, 0) + WidthAt(l, vs, 1) + WidthAt(l, vs, 2) + WidthAt(l, vs, 3)
  {
    hide EncodedWidth;
    assert |l| > 0 ==> PrefixWidth(l, vs, 1) == EncodedWidth(vs[0], l[0]);
    assert |l| > 1 ==> PrefixWidth(l, vs, 2) == PrefixWidth(l, vs, 1) + EncodedWidth(vs[1], l[1]);
    assert |l| > 2 ==> PrefixWidth(l, vs, 3) == PrefixWidth(l, vs, 2) + EncodedWidth(vs[2], l[2]);
    assert |l| > 3 ==> PrefixWidth(l, vs, 4) == PrefixWidth(l, vs, 3) + EncodedWidth(vs[3], l[3]);
  }

  lemma EncodedLength(f: Frame)
    requires Encodable(f)
    ensures |Encode(f)| == FrameLength(f)
  {
    var l := LayoutOf(TagOf(f)).value;
    var vs := ValuesOf(f);
    BodyWidth(l, vs, |l|);
    FourWidths(l, vs);
    hide Body, EncodeField, PrefixWidth;
  }

  /** The parser succeeds exactly on known tags with at least the minimum length. */
  lemma ParseAcceptsExactly(bytes: Bytes)
    ensures Parse(bytes).Parsed? <==>
            bytes != [] && LayoutOf(bytes[0]).Some? && MinFrameSize(LayoutOf(bytes[0]).value) <= |bytes|
    ensures Parse(bytes).Parsed? ==> TagOf(Parse(bytes).frame) == bytes[0]
  {
    hide Get, MinFrameSize;
  }

  /** On every byte string the parser lets through, every field lies inside the string. */
  lemma GettersInBounds(bytes: Bytes, i: nat)
    requires Parse(bytes).Parsed? && i < |LayoutOf(bytes[0]).value|
    ensures var l := LayoutOf(bytes[0]).value; FieldOffset(l, i) + Width(l[i]) <= |bytes|
  {
    ParseAcceptsExactly(bytes);
    hide Parse, LayoutOf;
    StartMonotone(LayoutOf(bytes[0]).value, i + 1, |LayoutOf(bytes[0]).value|);
  }

  /** A number of two bytes, with the more significant one first. */
  lemma {:induction false} TwoBytes(high: Byte, low: Byte, n: nat)
    requires n >= 2
    ensures ToBigEndian(high * 256 + low, n) == seq(n - 2, _ => 0) + [high, low]
  {
    var v := high * 256 + low;
    assert v / 256 == high && v % 256 == low && high / 256 == 0 && high % 256 == high;
    Zeros(n - 2);
    assert ToBigEndian(v, n) == ToBigEndian(high, n - 1) + [low];
    assert ToBigEndian(high, n - 1) == ToBigEndian(0, n - 2) + [high];
  }

  lemma {:induction false} Zeros(n: nat)
    ensures ToBigEndian(0, n) == seq(n, _ => 0)
  {
    if n > 0 { Zeros(n - 1); }
  }

  /** On the wire: the tag, then the fields in their order, numbers with their most significant byte first. */
  lemma WireExample(high: Byte, low: Byte, frames: Byte, bytes: Byte)
    ensures Encodable(Adjust(high * 256 + low, frames, bytes * 256))
            && Encode(Adjust(high * 256 + low, frames, bytes * 256))
               == [0x14, 0, 0, 0, 0, 0, 0, high, low, 0, 0, 0, frames, 0, 0, bytes, 0]
  {
    var f := Adjust(high * 256 + low, frames, bytes * 256);
    var l, vs := [Id64, Word32, Word32], [Num(high * 256 + low), Num(frames), Num(bytes * 256)];
    assert LayoutOf(TagOf(f)) == Some(l) && ValuesOf(f) == vs;
    TwoBytes(high, low, 8);
    TwoBytes(0, frames, 4);
    TwoBytes(bytes, 0, 4);
    hide ToBigEndian;
    assert EncodeField(l[0], vs[0]) == [0, 0, 0, 0, 0, 0, high, low];
    assert EncodeField(l[1], vs[1]) == [0, 0, 0, frames];
    assert EncodeField(l[2], vs[2]) == [0, 0, bytes, 0];
    hide EncodeField;
    assert Body(l, vs, 1) == [] + EncodeField(l[0], vs[0]) by { assert Body(l, vs, 0) == []; }
    assert Body(l, vs, 2) == Body(l, vs, 1) + EncodeField(l[1], vs[1]);
    assert Body(l, vs, 3) == Body(l, vs, 2) + EncodeField(l[2], vs[2]);
  }
}
