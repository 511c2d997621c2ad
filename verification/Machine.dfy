/** The machine integers of the native side, as bounded integers. */
module Machine {
  import opened Common

  const TWO_31: nat := 0x8000_0000
  const TWO_32: nat := 0x1_0000_0000
  const TWO_64: nat := 0x1_0000_0000_0000_0000

  type I32 = x: int | -0x8000_0000 <= x < 0x8000_0000
  type U32 = x: int | 0 <= x < TWO_32
  type U64 = x: int | 0 <= x < TWO_64

  function CheckedAdd(a: U64, b: U64): Option<U64> { if a + b < TWO_64 then Some(a + b) else None }

  function CheckedAdd32(a: U32, b: U32): Option<U32> { if a + b < TWO_32 then Some(a + b) else None }

  /** The product of two 32-bit numbers fits 64 bits. */
  lemma ProductFits(a: U32, b: U32)
    ensures 0 <= a * b < TWO_64
  {
    TimesGrows(a, b, 0xFFFF_FFFF, 0xFFFF_FFFF);
  }
}
