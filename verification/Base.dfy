/** Small types and sizes shared by the models. */
module Base {
  newtype Byte = b: int | 0 <= b < 256

  /** Page and frame, disk sector, and the ranges of the machine's words. */
  const PAGE: nat := 4096
  const SECTOR: nat := 512
  const U32: nat := 0x1_0000_0000
  const U64: nat := 0x1_0000_0000_0000_0000

  /** The sectors that n bytes take. */
  function SectorsFor(n: nat): nat {
    (n + SECTOR - 1) / SECTOR
  }
}
