/** Machine words as the ring uses them: u64 counters that wrap (release builds), the
    signed difference taken by `push`, and the little-endian layout of words in memory. */
module Words {

  const TWO32: int := 0x1_0000_0000
  const TWO63: int := 0x8000_0000_0000_0000
  const TWO64: int := 0x1_0000_0000_0000_0000

  type byte = b: int | 0 <= b < 256
  type u32 = x: int | 0 <= x < TWO32
  type u64 = x: int | 0 <= x < TWO64

  /** The 64-bit image of an unbounded counter. */
  function Wrap64(x: nat): u64 {
    x % TWO64
  }

  /** `data.len() as u32`: the cast keeps the low 32 bits. */
  function Truncate32(x: nat): u32 {
    x % TWO32
  }

  /** `x as i64`. */
  function AsI64(x: u64): int {
    if x < TWO63 then x else x - TWO64
  }

  /** `a as i64 - b as i64` with two's complement wrap-around. */
  function SubI64(a: u64, b: u64): int {
    var d := AsI64(a) - AsI64(b);
    if d < -TWO63 then d + TWO64 else if TWO63 <= d then d - TWO64 else d
  }

  /** The wrapped signed difference of two counters is their true difference exactly
      when the true difference fits an i64, however often either counter has wrapped. */
  lemma SignedDifference(a: nat, b: nat)
    ensures SubI64(Wrap64(a), Wrap64(b)) == a - b <==> -TWO63 <= a - b < TWO63
  {
    var qa, qb := a / TWO64, b / TWO64;
    assert a == TWO64 * qa + Wrap64(a) && b == TWO64 * qb + Wrap64(b);
    var d := SubI64(Wrap64(a), Wrap64(b));
    assert -TWO63 <= d < TWO63;
    assert exists m: int :: a - b == d + TWO64 * m by {
      var d0 := AsI64(Wrap64(a)) - AsI64(Wrap64(b));
      var ka, kb := if Wrap64(a) < TWO63 then 0 else 1, if Wrap64(b) < TWO63 then 0 else 1;
      var k := if d0 < -TWO63 then 1 else if TWO63 <= d0 then -1 else 0;
      var m := qa - qb + ka - kb - k;
      assert a - b == d + TWO64 * m;
    }
  }

  /** Two counters have the same 64-bit image exactly when they differ by a multiple of 2^64;
      so an equality test on the images is exact while the counters are less than 2^64 apart. */
  lemma EqualImages(a: nat, b: nat)
    ensures Wrap64(a) == Wrap64(b) <==> (a - b) % TWO64 == 0
    ensures -TWO64 < a - b < TWO64 ==> (Wrap64(a) == Wrap64(b) <==> a == b)
  {
    assert a == TWO64 * (a / TWO64) + Wrap64(a);
    assert b == TWO64 * (b / TWO64) + Wrap64(b);
    assert a - b == TWO64 * (a / TWO64 - b / TWO64) + Wrap64(a) - Wrap64(b);
  }

  /** Wrapping commutes with addition, so a chain of wrapping additions is the image of the sum. */
  lemma WrapSum(a: nat, b: nat)
    ensures Wrap64(Wrap64(a) + b) == Wrap64(a + b)
  {
    assert a == TWO64 * (a / TWO64) + Wrap64(a);
  }

  // ----- Little-endian words in memory -----

  function Pow256(n: nat): nat {
    if n == 0 then 1 else 256 * Pow256(n - 1)
  }

  function ToLE(x: nat, n: nat): (bytes: seq<byte>)
    ensures |bytes| == n
  {
    if n == 0 then [] else [x % 256] + ToLE(x / 256, n - 1)
  }

  function FromLE(bytes: seq<byte>): nat {
    if bytes == [] then 0 else bytes[0] + 256 * FromLE(bytes[1..])
  }

  /** Reading back a stored word gives the word, if it fits the width. */
  lemma {:induction false} LoadStored(x: nat, n: nat)
    requires x < Pow256(n)
    ensures FromLE(ToLE(x, n)) == x
  {
    if n > 0 {
      LoadStored(x / 256, n - 1);
      assert ToLE(x, n)[1..] == ToLE(x / 256, n - 1);
    }
  }

  lemma LoadStored64(x: u64)
    ensures FromLE(ToLE(x, 8)) == x
  {
    assert Pow256(4) == TWO32;
    assert Pow256(8) == TWO64;
    LoadStored(x, 8);
  }

  lemma LoadStored32(x: u32)
    ensures FromLE(ToLE(x, 4)) == x
  {
    assert Pow256(4) == TWO32;
    LoadStored(x, 4);
  }

  lemma {:induction false} LoadBound(bytes: seq<byte>)
    ensures FromLE(bytes) < Pow256(|bytes|)
  {
    if bytes != [] {
      LoadBound(bytes[1..]);
    }
  }
}
