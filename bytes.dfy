/** Bytes and the AVM's 64-bit integer conversions `itob` and `btoi`. */
module Bytes {

  type byte = x: int | 0 <= x < 256

  const U64Limit: nat := 0x1_0000_0000_0000_0000

  /** The AVM's `uint64`. */
  type u64 = x: int | 0 <= x < U64Limit

  /** n zero bytes. */
  function Zeros(n: nat): (r: seq<byte>)
    ensures |r| == n && forall i :: 0 <= i < n ==> r[i] == 0
  {
    seq(n, _ => 0)
  }

  /** 256 to the power k: one more than the largest k-byte unsigned value. */
  function Pow256(k: nat): (r: nat)
    ensures r >= 1
  {
    if k == 0 then 1 else 256 * Pow256(k - 1)
  }

  lemma {:induction false} Pow256Monotone(j: nat, k: nat)
    requires j <= k
    ensures Pow256(j) <= Pow256(k)
  {
    if j < k {
      Pow256Monotone(j, k - 1);
    }
  }

  lemma Pow256Eight()
    ensures Pow256(8) == U64Limit
  {
  }

  /** The unsigned big-endian value of a byte string of any length. */
  function BigEndian(b: seq<byte>): (r: nat)
    ensures r < Pow256(|b|)
  {
    if |b| == 0 then 0
    else
      var high := BigEndian(b[..|b| - 1]);
      assert high <= Pow256(|b| - 1) - 1;
      assert high * 256 <= Pow256(|b|) - 256;
      high * 256 + b[|b| - 1]
  }

  /** The k-byte big-endian encoding of n. */
  function ToBigEndian(n: nat, k: nat): (r: seq<byte>)
    requires n < Pow256(k)
    ensures |r| == k
    ensures BigEndian(r) == n
  {
    if k == 0 then []
    else
      var rest := ToBigEndian(n / 256, k - 1);
      assert (rest + [n % 256])[..k - 1] == rest;
      rest + [n % 256]
  }

  /** Every k-byte string is the encoding of its own value. */
  lemma {:induction false} ToBigEndianOfBigEndian(b: seq<byte>)
    ensures ToBigEndian(BigEndian(b), |b|) == b
  {
    if |b| > 0 {
      var k := |b|;
      var n := BigEndian(b);
      ToBigEndianOfBigEndian(b[..k - 1]);
      assert n / 256 == BigEndian(b[..k - 1]);
      assert n % 256 == b[k - 1];
      assert b == b[..k - 1] + [b[k - 1]];
    }
  }

  /** `op.btoi`: the AVM accepts at most 8 bytes and reads them big-endian. */
  function Btoi(b: seq<byte>): (r: u64)
    requires |b| <= 8
    ensures r < Pow256(|b|)
  {
    Pow256Monotone(|b|, 8);
    Pow256Eight();
    BigEndian(b)
  }

  /** `op.itob`: the 8-byte big-endian encoding of a `uint64`. */
  function Itob(n: u64): (r: seq<byte>)
    ensures |r| == 8
    ensures Btoi(r) == n
  {
    Pow256Eight();
    ToBigEndian(n, 8)
  }

  /** `itob` is onto the 8-byte strings: `itob(btoi(b)) == b`. */
  lemma ItobOfBtoi(b: seq<byte>)
    requires |b| == 8
    ensures Itob(Btoi(b)) == b
  {
    ToBigEndianOfBigEndian(b);
  }

  /** Distinct integers have distinct encodings. */
  lemma ItobInjective(m: u64, n: u64)
    requires Itob(m) == Itob(n)
    ensures m == n
  {
    assert Btoi(Itob(m)) == Btoi(Itob(n));
  }
}
