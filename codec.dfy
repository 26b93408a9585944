/** The `Item` record and its fixed-layout byte codec (`Item.pad_string`,
    `Item.serialize`, `Item.deserialize`). Strings are modelled by their bytes. */
module Codec {
  import opened Bytes

  /** Width of each padded string field and of the farm address. */
  const FieldWidth: nat := 32

  /** Length of a serialized item whose fields all fit their widths. */
  const RecordSize: nat := 160

  /** Offset of the `state` field within a serialized item. */
  const StateOffset: nat := 144

  datatype Item = Item(
    farmAddress: seq<byte>,
    farmName: seq<byte>,
    farmInfo: seq<byte>,
    longitude: u64,
    latitude: u64,
    productNote: seq<byte>,
    state: u64,
    price: u64)

  function Max(a: nat, b: nat): nat { if a < b then b else a }

  /** True when the string does not end in a zero byte. */
  predicate NoTrailingZero(s: seq<byte>)
  {
    |s| == 0 || s[|s| - 1] != 0
  }

  /** `pad_string`: Python's `ljust` with zero bytes. A longer string is
      returned unchanged, never truncated. */
  function PadString(s: seq<byte>, length: nat): (r: seq<byte>)
    ensures |r| == Max(|s|, length)
    ensures r[..|s|] == s
    ensures forall i :: |s| <= i < |r| ==> r[i] == 0
  {
    if |s| >= length then s else s + Zeros(length - |s|)
  }

  /** Python's `bytes.rstrip(b"\x00")`: removes every trailing zero byte. */
  function RStripZeros(s: seq<byte>): (r: seq<byte>)
    ensures |r| <= |s| && r == s[..|r|]
    ensures forall i :: |r| <= i < |s| ==> s[i] == 0
    ensures NoTrailingZero(r)
  {
    if |s| > 0 && s[|s| - 1] == 0 then RStripZeros(s[..|s| - 1]) else s
  }

  /** Python's slice `s[lo:hi]` for 0 <= lo <= hi: out-of-range bounds are
      clamped to the length instead of failing. */
  function PySlice(s: seq<byte>, lo: nat, hi: nat): (r: seq<byte>)
    requires lo <= hi
    ensures |r| <= hi - lo
    ensures hi <= |s| ==> r == s[lo..hi]
  {
    var l := if lo <= |s| then lo else |s|;
    var h := if hi <= |s| then hi else |s|;
    s[l..h]
  }

  /** `Item.serialize`. */
  function Serialize(item: Item): (r: seq<byte>)
    ensures |r| == |item.farmAddress| + Max(|item.farmName|, 32) + Max(|item.farmInfo|, 32)
                   + 16 + Max(|item.productNote|, 32) + 16
  {
    item.farmAddress
    + PadString(item.farmName, FieldWidth)
    + PadString(item.farmInfo, FieldWidth)
    + Itob(item.longitude)
    + Itob(item.latitude)
    + PadString(item.productNote, FieldWidth)
    + Itob(item.state)
    + Itob(item.price)
  }

  /** `Item.deserialize`: fixed slices of the input, with trailing zeros
      stripped from the string fields. */
  function Deserialize(data: seq<byte>): (r: Item)
    ensures |r.farmAddress| <= 32
    ensures |r.farmName| <= 32 && NoTrailingZero(r.farmName)
    ensures |r.farmInfo| <= 32 && NoTrailingZero(r.farmInfo)
    ensures |r.productNote| <= 32 && NoTrailingZero(r.productNote)
    ensures |data| >= RecordSize ==> Representable(r)
  {
    Item(
      PySlice(data, 0, 32),
      RStripZeros(PySlice(data, 32, 64)),
      RStripZeros(PySlice(data, 64, 96)),
      Btoi(PySlice(data, 96, 104)),
      Btoi(PySlice(data, 104, 112)),
      RStripZeros(PySlice(data, 112, 144)),
      Btoi(PySlice(data, 144, 152)),
      Btoi(PySlice(data, 152, 160)))
  }

  /** A string field that survives padding and stripping. */
  predicate FitsField(s: seq<byte>)
  {
    |s| <= FieldWidth && NoTrailingZero(s)
  }

  /** An item the codec represents faithfully. */
  predicate Representable(item: Item)
  {
    && |item.farmAddress| == 32
    && FitsField(item.farmName)
    && FitsField(item.farmInfo)
    && FitsField(item.productNote)
  }

  /** The serialized length is the fixed 160 bytes exactly when no string
      field is longer than its 32-byte width. */
  lemma SerializeLength(item: Item)
    requires |item.farmAddress| == 32
    ensures |Serialize(item)| == RecordSize <==>
              |item.farmName| <= 32 && |item.farmInfo| <= 32 && |item.productNote| <= 32
    ensures |Serialize(item)| >= RecordSize
  {
  }

  /** Where `serialize` puts each field: the byte ranges `deserialize` reads. */
  lemma SerializeLayout(item: Item)
    requires |item.farmAddress| == 32
    requires |item.farmName| <= 32 && |item.farmInfo| <= 32 && |item.productNote| <= 32
    ensures var r := Serialize(item);
      && |r| == RecordSize
      && r[0..32] == item.farmAddress
      && r[32..64] == PadString(item.farmName, 32)
      && r[64..96] == PadString(item.farmInfo, 32)
      && r[96..104] == Itob(item.longitude)
      && r[104..112] == Itob(item.latitude)
      && r[112..144] == PadString(item.productNote, 32)
      && r[144..152] == Itob(item.state)
      && r[152..160] == Itob(item.price)
  {
    var a := item.farmAddress;
    var n := PadString(item.farmName, FieldWidth);
    var f := PadString(item.farmInfo, FieldWidth);
    var lo := Itob(item.longitude);
    var la := Itob(item.latitude);
    var p := PadString(item.productNote, FieldWidth);
    var s := Itob(item.state);
    var pr := Itob(item.price);
    var r1 := a;
    var r2 := r1 + n;
    var r3 := r2 + f;
    var r4 := r3 + lo;
    var r5 := r4 + la;
    var r6 := r5 + p;
    var r7 := r6 + s;
    var r8 := r7 + pr;
    SliceOfLeft(r1, n, 0, 32);
    SliceOfLeft(r2, f, 0, 32);
    SliceOfLeft(r3, lo, 0, 32);
    SliceOfLeft(r4, la, 0, 32);
    SliceOfLeft(r5, p, 0, 32);
    SliceOfLeft(r6, s, 0, 32);
    SliceOfLeft(r7, pr, 0, 32);
    SliceOfRight(r1, n);
    SliceOfLeft(r2, f, 32, 64);
    SliceOfLeft(r3, lo, 32, 64);
    SliceOfLeft(r4, la, 32, 64);
    SliceOfLeft(r5, p, 32, 64);
    SliceOfLeft(r6, s, 32, 64);
    SliceOfLeft(r7, pr, 32, 64);
    SliceOfRight(r2, f);
    SliceOfLeft(r3, lo, 64, 96);
    SliceOfLeft(r4, la, 64, 96);
    SliceOfLeft(r5, p, 64, 96);
    SliceOfLeft(r6, s, 64, 96);
    SliceOfLeft(r7, pr, 64, 96);
    SliceOfRight(r3, lo);
    SliceOfLeft(r4, la, 96, 104);
    SliceOfLeft(r5, p, 96, 104);
    SliceOfLeft(r6, s, 96, 104);
    SliceOfLeft(r7, pr, 96, 104);
    SliceOfRight(r4, la);
    SliceOfLeft(r5, p, 104, 112);
    SliceOfLeft(r6, s, 104, 112);
    SliceOfLeft(r7, pr, 104, 112);
    SliceOfRight(r5, p);
    SliceOfLeft(r6, s, 112, 144);
    SliceOfLeft(r7, pr, 112, 144);
    SliceOfRight(r6, s);
    SliceOfLeft(r7, pr, 144, 152);
    SliceOfRight(r7, pr);
  }

  /** A slice inside the left operand of a concatenation. */
  lemma SliceOfLeft(x: seq<byte>, y: seq<byte>, lo: nat, hi: nat)
    requires lo <= hi <= |x|
    ensures (x + y)[lo..hi] == x[lo..hi]
  {
  }

  /** The right operand of a concatenation, sliced back out. */
  lemma SliceOfRight(x: seq<byte>, y: seq<byte>)
    ensures (x + y)[|x|..|x| + |y|] == y
  {
  }

  /** `rstrip` keeps exactly the prefix up to the last non-zero byte. */
  lemma RStripExact(s: seq<byte>, n: nat)
    requires n <= |s| && NoTrailingZero(s[..n])
    requires forall i :: n <= i < |s| ==> s[i] == 0
    ensures RStripZeros(s) == s[..n]
  {
    var r := RStripZeros(s);
    assert n > 0 ==> s[n - 1] == s[..n][n - 1] != 0;
    assert |r| > 0 ==> s[|r| - 1] == r[|r| - 1] != 0;
    assert |r| == n;
  }

  /** Stripping undoes padding for a string without trailing zeros. */
  lemma RStripOfPad(s: seq<byte>, length: nat)
    requires NoTrailingZero(s)
    ensures RStripZeros(PadString(s, length)) == s
  {
    var p := PadString(s, length);
    assert p[..|s|] == s;
    RStripExact(p, |s|);
  }

  /** Padding undoes stripping for a full-width field. */
  lemma PadOfRStrip(x: seq<byte>)
    requires |x| == FieldWidth
    ensures PadString(RStripZeros(x), FieldWidth) == x
  {
    var r := RStripZeros(x);
    var p := PadString(r, FieldWidth);
    assert forall i :: 0 <= i < |x| ==> p[i] == x[i] by {
      forall i | 0 <= i < |x| ensures p[i] == x[i] {
        if i < |r| {
          assert p[i] == p[..|r|][i] == r[i] == x[i];
        }
      }
    }
  }

  /** Round trip: `deserialize(serialize(item)) == item` for every
      representable item. */
  lemma DeserializeSerialize(item: Item)
    requires Representable(item)
    ensures Deserialize(Serialize(item)) == item
  {
    var r := Serialize(item);
    SerializeLayout(item);
    RStripOfPad(item.farmName, FieldWidth);
    RStripOfPad(item.farmInfo, FieldWidth);
    RStripOfPad(item.productNote, FieldWidth);
  }

  /** On a 160-byte buffer, `deserialize` reads exactly the eight field ranges. */
  lemma DeserializeExact(data: seq<byte>)
    requires |data| == RecordSize
    ensures Deserialize(data) == Item(
      data[0..32], RStripZeros(data[32..64]), RStripZeros(data[64..96]),
      Btoi(data[96..104]), Btoi(data[104..112]), RStripZeros(data[112..144]),
      Btoi(data[144..152]), Btoi(data[152..160]))
  {
  }

  /** Two 160-byte buffers that agree on every field range are equal. */
  lemma EqualByFields(r: seq<byte>, d: seq<byte>)
    requires |r| == RecordSize && |d| == RecordSize
    requires r[0..32] == d[0..32] && r[32..64] == d[32..64] && r[64..96] == d[64..96]
    requires r[96..104] == d[96..104] && r[104..112] == d[104..112]
    requires r[112..144] == d[112..144] && r[144..152] == d[144..152] && r[152..160] == d[152..160]
    ensures r == d
  {
    forall i | 0 <= i < RecordSize ensures r[i] == d[i] {
      var lo := if i < 32 then 0 else if i < 64 then 32 else if i < 96 then 64
                else if i < 104 then 96 else if i < 112 then 104 else if i < 144 then 112
                else if i < 152 then 144 else 152;
      var hi := if i < 32 then 32 else if i < 64 then 64 else if i < 96 then 96
                else if i < 104 then 104 else if i < 112 then 112 else if i < 144 then 144
                else if i < 152 then 152 else 160;
      assert r[lo..hi] == d[lo..hi];
      assert r[i] == r[lo..hi][i - lo] == d[lo..hi][i - lo] == d[i];
    }
  }

  /** Every 160-byte buffer decodes to a representable item that encodes
      back to the same buffer: the codec is a bijection between 160-byte
      buffers and representable items. */
  lemma SerializeDeserialize(data: seq<byte>)
    requires |data| == RecordSize
    ensures Representable(Deserialize(data))
    ensures Serialize(Deserialize(data)) == data
  {
    var item := Deserialize(data);
    DeserializeExact(data);
    PadOfRStrip(data[32..64]);
    PadOfRStrip(data[64..96]);
    PadOfRStrip(data[112..144]);
    ItobOfBtoi(data[96..104]);
    ItobOfBtoi(data[104..112]);
    ItobOfBtoi(data[144..152]);
    ItobOfBtoi(data[152..160]);
    SerializeLayout(item);
    EqualByFields(Serialize(item), data);
  }

  /** A name ending in a zero byte does not survive the round trip: it comes
      back with its trailing zeros stripped. */
  lemma TrailingZeroLost(item: Item)
    requires |item.farmAddress| == 32
    requires |item.farmName| <= 32 && !NoTrailingZero(item.farmName)
    requires |item.farmInfo| <= 32 && |item.productNote| <= 32
    ensures Deserialize(Serialize(item)).farmName == RStripZeros(item.farmName)
    ensures Deserialize(Serialize(item)) != item
  {
    SerializeLayout(item);
    var x := PadString(item.farmName, FieldWidth);
    var r := RStripZeros(item.farmName);
    assert x[..|r|] == r;
    assert forall i :: |r| <= i < |x| ==> x[i] == 0;
    RStripExact(x, |r|);
  }

  /** An over-long name is not truncated by `serialize`: the record grows past
      160 bytes and `deserialize` keeps only the first 32 bytes of the name, so
      the item never round-trips. */
  lemma OverlongNameLost(item: Item)
    requires |item.farmAddress| == 32
    requires |item.farmName| > 32
    ensures |Serialize(item)| > RecordSize
    ensures Deserialize(Serialize(item)).farmName == RStripZeros(item.farmName[..32])
    ensures Deserialize(Serialize(item)) != item
  {
    var r := Serialize(item);
    var head := item.farmAddress + item.farmName;
    assert r[..|head|] == head;
    assert r[32..64] == head[32..64] == item.farmName[..32];
  }
}
