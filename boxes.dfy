/** The AVM box primitives (`op.Box.length`, `op.Box.create`,
    `op.Box.extract`, `op.Box.replace`) as operations on the application's
    box store, a map from box keys to box contents. */
module Boxes {
  import opened Bytes
  import opened Wrappers

  type Key = seq<byte>
  type Store = map<Key, seq<byte>>

  /** The AVM's largest box, in bytes. */
  const MaxBoxSize: nat := 32768

  /** The AVM's longest box key, in bytes. */
  const MaxKeyLength: nat := 64

  /** `b` with the bytes at [offset, offset + |w|) replaced by `w`. */
  function Overwrite(b: seq<byte>, offset: nat, w: seq<byte>): (r: seq<byte>)
    requires offset + |w| <= |b|
    ensures |r| == |b|
    ensures r[offset..offset + |w|] == w
    ensures forall i :: 0 <= i < |b| && !(offset <= i < offset + |w|) ==> r[i] == b[i]
  {
    b[..offset] + w + b[offset + |w|..]
  }

  /** A range that lies wholly outside the written one keeps its contents. */
  lemma OverwriteKeepsRange(b: seq<byte>, offset: nat, w: seq<byte>, lo: nat, hi: nat)
    requires offset + |w| <= |b| && lo <= hi <= |b|
    requires hi <= offset || lo >= offset + |w|
    ensures Overwrite(b, offset, w)[lo..hi] == b[lo..hi]
  {
    var r := Overwrite(b, offset, w);
    forall i | lo <= i < hi ensures r[i] == b[i] { }
  }

  /** `op.Box.length`: the box's length and whether it exists (0 for a
      missing box), in the opcode's order. */
  function Length(s: Store, key: Key): (r: (nat, bool))
    ensures r.1 <==> key in s
    ensures r.0 == (if key in s then |s[key]| else 0)
  {
    if key in s then (|s[key]|, true) else (0, false)
  }

  /** `op.Box.create`: fails for an over-large box, a key outside 1..64
      bytes, or an existing box of another size; answers false and changes
      nothing when a box of that size already exists; otherwise adds a
      zero-filled box and answers true. */
  function Create(s: Store, key: Key, size: nat): (r: Option<(bool, Store)>)
    ensures r.Some? <==> size <= MaxBoxSize && 0 < |key| <= MaxKeyLength
                         && (key in s ==> |s[key]| == size)
    ensures r.Some? && r.value.0 ==> key !in s && r.value.1 == s[key := Zeros(size)]
    ensures r.Some? && !r.value.0 ==> key in s && r.value.1 == s
  {
    if size > MaxBoxSize || |key| == 0 || |key| > MaxKeyLength then None
    else if key in s then (if |s[key]| == size then Some((false, s)) else None)
    else Some((true, s[key := Zeros(size)]))
  }

  /** `op.Box.extract`: `length` bytes from `offset`; fails for a missing
      box or a range past its end. */
  function Extract(s: Store, key: Key, offset: nat, length: nat): (r: Option<seq<byte>>)
    ensures r.Some? <==> key in s && offset + length <= |s[key]|
    ensures r.Some? ==> |r.value| == length
                        && forall i :: 0 <= i < length ==> r.value[i] == s[key][offset + i]
  {
    if key in s && offset + length <= |s[key]| then Some(s[key][offset..offset + length])
    else None
  }

  /** `op.Box.replace`: overwrites bytes of an existing box in place; fails
      for a missing box or a range past its end, and never changes a box's
      length or any other box. */
  function Replace(s: Store, key: Key, offset: nat, w: seq<byte>): (r: Option<Store>)
    ensures r.Some? <==> key in s && offset + |w| <= |s[key]|
    ensures r.Some? ==> && r.value.Keys == s.Keys
                        && |r.value[key]| == |s[key]|
                        && r.value[key][offset..offset + |w|] == w
                        && (forall i :: 0 <= i < |s[key]| && !(offset <= i < offset + |w|)
                              ==> r.value[key][i] == s[key][i])
                        && (forall k :: k in s && k != key ==> r.value[k] == s[k])
  {
    if key in s && offset + |w| <= |s[key]| then Some(s[key := Overwrite(s[key], offset, w)])
    else None
  }
}
