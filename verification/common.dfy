/** Machine words shared by every part of the emulator: 8-bit bytes, 16-bit
    addresses, the 64 KiB address space and its little-endian 16-bit reads. */
module Common {

  /** An unsigned 8-bit value (`uint8_t`). */
  type Byte = b: int | 0 <= b < 0x100

  /** An unsigned 16-bit value (`uint16_t`): an address or a program counter. */
  type Word = w: int | 0 <= w < 0x1_0000

  /** Number of addressable bytes. */
  const MemorySize: int := 0x1_0000

  datatype Option<T> = None | Some(value: T)

  /** Truncation to 16 bits, as a store into a `uint16_t` does. */
  function Wrap16(n: int): (w: Word)
    ensures 0 <= n < MemorySize ==> w == n
    ensures (w - n) % MemorySize == 0
  {
    n % MemorySize
  }

  /** Truncation to 8 bits, as a store into a `uint8_t` does. */
  function Wrap8(n: int): (b: Byte)
    ensures 0 <= n < 0x100 ==> b == n
    ensures (b - n) % 0x100 == 0
  {
    n % 0x100
  }

  /** The page (high byte) of an address. */
  function Page(addr: Word): (p: Byte)
    ensures p * 0x100 <= addr < p * 0x100 + 0x100
  {
    addr / 0x100
  }

  /** The byte viewed as a two's-complement `int8_t`. */
  function Signed(b: Byte): (s: int)
    ensures -0x80 <= s < 0x80
    ensures (s - b) % 0x100 == 0
  {
    if b < 0x80 then b else b - 0x100
  }

  /** The little-endian 16-bit value stored at `addr` and the address after it;
      the second byte's address wraps from 0xFFFF to 0x0000. */
  function Read16(mem: seq<Byte>, addr: Word): (w: Word)
    requires |mem| == MemorySize
    ensures w % 0x100 == mem[addr]
    ensures w / 0x100 == mem[Wrap16(addr + 1)]
  {
    var hi: int := mem[Wrap16(addr + 1)];
    mem[addr] + hi * 0x100
  }
}
