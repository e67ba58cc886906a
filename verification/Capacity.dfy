/** Sizes: bytes in the orchestrator's requests, whole GiB in the service. */
module Capacity {
  import opened Parameters

  const GIB := 1024 * 1024 * 1024
  const MAX_INT32 := 0x7fff_ffff

  type Int32 = x: int | -0x8000_0000 <= x <= 0x7fff_ffff
  type Int64 = x: int | -0x8000_0000_0000_0000 <= x <= 0x7fff_ffff_ffff_ffff

  /** Go's integer division, which drops the fraction towards zero. */
  function Quotient(a: int, b: int): int
    requires b > 0
  {
    if a >= 0 then a / b else -((-a) / b)
  }

  /** Go's conversion to a 32-bit integer, which keeps the low 32 bits. */
  function ToInt32(x: int): Int32 {
    (x + 0x8000_0000) % 0x1_0000_0000 - 0x8000_0000
  }

  /** Only sizes that are too large are refused; the conversion itself never fails. */
  function BytesToGiB(bytes: Int64): Option<Int32> {
    var gib := Quotient(bytes, GIB);
    if gib > MAX_INT32 then None else Some(ToInt32(gib))
  }

  /** The type of the result says that the 64-bit product does not overflow. */
  function GiBToBytes(gib: Int32): Int64 {
    gib * GIB
  }

  /** Rounding down loses less than one GiB, and nothing exactly for whole numbers of GiB. */
  lemma RoundsDown(bytes: Int64)
    requires bytes >= 0
    ensures BytesToGiB(bytes).None? <==> bytes >= 0x8000_0000 * 0x4000_0000
    ensures BytesToGiB(bytes).Some? ==>
      var back := GiBToBytes(BytesToGiB(bytes).value);
      && 0 <= BytesToGiB(bytes).value
      && back <= bytes < back + GIB
      && (back == bytes <==> bytes % GIB == 0)
  {
  }

  /** Every 32-bit number of GiB survives the way to bytes and back, negative ones included. */
  lemma GiBRoundTrip(gib: Int32)
    ensures GiBToBytes(gib) == gib * 0x4000_0000
    ensures BytesToGiB(GiBToBytes(gib)) == Some(gib)
  {
    if gib < 0 {
      var g: int := -(gib as int);
      assert (g * GIB) / GIB == g;
    }
  }

  /** A negative size rounds towards zero as long as its GiB fit 32 bits; below that the conversion wraps. */
  lemma NegativeSizes(bytes: Int64)
    requires bytes < 0
    ensures BytesToGiB(bytes).Some?
    ensures BytesToGiB(bytes).value <= 0 && bytes <= GiBToBytes(BytesToGiB(bytes).value) < bytes + GIB
      <==> bytes > -0x8000_0001 * GIB
  {
  }
}
