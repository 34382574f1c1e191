/** Machine integers and the byte orders used on the wire. */
module Bytes {

  newtype byte = x: int | 0 <= x < 256
  newtype u16 = x: int | 0 <= x < 0x1_0000

  /** Rust's `n as u16`: keeps the low 16 bits. */
  function TruncateU16(n: nat): (r: u16)
    ensures n < 0x1_0000 ==> r as int == n
    ensures (r as int - n) % 0x1_0000 == 0
  {
    (n % 0x1_0000) as u16
  }

  /** `u16::to_be_bytes`. */
  function U16ToBe(v: u16): (r: seq<byte>)
    ensures |r| == 2
  {
    [(v as int / 256) as byte, (v as int % 256) as byte]
  }

  /** `u16::from_be_bytes`. */
  function U16FromBe(hi: byte, lo: byte): u16 {
    (hi as int * 256 + lo as int) as u16
  }

  lemma BeRoundTrip(v: u16)
    ensures U16FromBe(U16ToBe(v)[0], U16ToBe(v)[1]) == v
  {
  }

  /** `u16::to_le_bytes`, as bincode writes a `u16`. */
  function U16ToLe(v: u16): (r: seq<byte>)
    ensures |r| == 2
  {
    [(v as int % 256) as byte, (v as int / 256) as byte]
  }

  function U16FromLe(b: seq<byte>): u16
    requires |b| == 2
  {
    (b[0] as int + b[1] as int * 256) as u16
  }

  /** Little-endian encoding of a natural number in `k` bytes (bincode's `u64` length prefix uses k = 8). */
  function NatToLe(n: nat, k: nat): (r: seq<byte>)
    ensures |r| == k
  {
    if k == 0 then [] else [(n % 256) as byte] + NatToLe(n / 256, k - 1)
  }

  function NatFromLe(b: seq<byte>): nat {
    if b == [] then 0 else b[0] as nat + 256 * NatFromLe(b[1..])
  }

  function Pow256(k: nat): (r: nat)
    ensures r > 0
  {
    if k == 0 then 1 else 256 * Pow256(k - 1)
  }

  lemma {:induction false} LeRoundTrip(n: nat, k: nat)
    requires n < Pow256(k)
    ensures NatFromLe(NatToLe(n, k)) == n
  {
    if k > 0 {
      LeRoundTrip(n / 256, k - 1);
      assert NatToLe(n, k)[1..] == NatToLe(n / 256, k - 1);
    }
  }

  lemma {:induction false} LeBound(b: seq<byte>)
    ensures NatFromLe(b) < Pow256(|b|)
  {
    if b != [] {
      LeBound(b[1..]);
    }
  }
}
