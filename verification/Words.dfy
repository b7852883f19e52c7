/** Fixed-width machine words of the firmware, as ranges of the integers. */
module Words {

  type byte = x: int | 0 <= x < 0x100
  type u16 = x: int | 0 <= x < 0x1_0000
  type u32 = x: int | 0 <= x < 0x1_0000_0000

  const U32_RANGE := 0x1_0000_0000

  datatype Option<+T> = None | Some(value: T)

  function Hi(v: u16): byte {
    v / 256
  }

  function Lo(v: u16): byte {
    v % 256
  }

  function Join(hi: byte, lo: byte): u16 {
    256 * hi + lo
  }

  lemma JoinHiLo(v: u16)
    ensures Join(Hi(v), Lo(v)) == v
  {
  }

  lemma HiLoJoin(hi: byte, lo: byte)
    ensures Hi(Join(hi, lo)) == hi && Lo(Join(hi, lo)) == lo
  {
  }

  function Min(a: int, b: int): int {
    if a <= b then a else b
  }
}
