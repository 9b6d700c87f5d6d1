/** Machine words, powers of two and optional values. */
module Words {
  newtype Word = w: int | 0 <= w < 0x1_0000_0000

  const ALL_ONES: Word := 0xFFFF_FFFF

  datatype Option<T> = None | Some(value: T)

  function Bit(b: bool): nat { if b then 1 else 0 }

  function Pow2(k: nat): (p: nat)
    ensures 0 < p
  {
    if k == 0 then 1 else 2 * Pow2(k - 1)
  }
}
