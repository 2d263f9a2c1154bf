/*
 * Vocabulary shared by the IndustryPack carrier drivers: the status codes
 * they return, the interrupt commands the IPAC core sends them, the
 * address spaces of an IP slot, and an optional value for the places where
 * the C code tests a pointer for NULL.
 */
module IpacBase {

  datatype Option<T> = None | Some(value: T)

  /** The status codes of the carrier drivers, named after their IPAC symbols. */
  datatype Status =
    | OK                // 0
    | BadAddress        // S_IPAC_badAddress
    | NotImplemented    // S_IPAC_notImplemented
    | BadIntLevel       // S_IPAC_badIntLevel
    | BadModule         // S_IPAC_badModule
    | NoModule          // S_IPAC_noModule
    | BadDriver         // S_IPAC_badDriver
    | NoMemory          // S_IPAC_noMemory
    | Failed            // ERR (-1) of the Hy8002 driver

  /** A VME interrupt level, 0..7. */
  type Level = n: int | 0 <= n < 8

  /** ipac_irqCmd_t: the commands the IPAC core passes to a carrier's irqCmd. */
  datatype IrqCmd =
    | IrqLevel(level: Level)   // ipac_irqLevel0 .. ipac_irqLevel7
    | GetLevel
    | Enable
    | Disable
    | Poll
    | SetEdge
    | SetLevel
    | Clear
    | StatUnused
    | StatActive

  /**
   * What irqCmd returns. The C function returns one int that is either a
   * status code or, for GetLevel and Poll, a value; the model keeps the two
   * apart.
   */
  datatype IrqReply = Code(status: Status) | Value(value: int)

  /** ipac_addr_t: the address spaces of an IP slot. */
  datatype AddrSpace = ID | IO | IO32 | Mem

  /** The VME address spaces devRegisterAddress maps. */
  datatype AddrMode = A16 | A32

  /** One devRegisterAddress call: the bus address and the size of the window. */
  datatype Request = Request(mode: AddrMode, base: bv32, size: int)

  /**
   * What devRegisterAddress hands back: whether it succeeded, and the value
   * left in the caller's out-parameter (the local address on success).
   * devLib is foreign code, so the model receives it as a function.
   */
  datatype Mapping = Mapping(ok: bool, addr: bv32)

  /** A register word with the bits of mask set. */
  function SetBits16(w: bv16, mask: bv16): bv16 { w | mask }

  /** A register word with the bits of mask cleared. */
  function ClearBits16(w: bv16, mask: bv16): bv16 { w & !mask }

  /** Address arithmetic on a 32-bit target: the sum wraps modulo 2^32. */
  function AddrAdd(a: bv32, off: bv32): bv32 { a + off }

  /** An IP slot's interrupt line: each IP module has two, 0 and 1. */
  predicate IsIrqLine(irq: int) { irq == 0 || irq == 1 }

  /** 1 << n for n < 16, written out. */
  function Bit16(n: nat): (b: bv16)
    requires n < 16
  {
    if n < 8 then Bit8(n) else Bit8(n - 8) << 8
  }

  function Bit8(n: nat): (b: bv16)
    requires n < 8
  {
    if n < 4 then
      if n == 0 then 0x1 else if n == 1 then 0x2 else if n == 2 then 0x4 else 0x8
    else
      if n == 4 then 0x10 else if n == 5 then 0x20 else if n == 6 then 0x40 else 0x80
  }

  /** Setting then clearing a bit, and clearing it, seen through the bit and through the others. */
  lemma SetClear(x: bv16, b: bv16)
    ensures (x | b) & b == b && (x | b) & !b == x & !b
    ensures (x & !b) & b == 0 && (x & !b) & !b == x & !b
  {
  }

  /** Different single bits do not overlap. */
  lemma BitsApart(m: nat, n: nat)
    requires m < 16 && n < 16 && m != n
    ensures Bit16(m) & Bit16(n) == 0
  {
  }

  /** Clearing a bit that was clear before it was set gives back the word. */
  lemma Undo(x: bv16, b: bv16)
    requires x & b == 0
    ensures ClearBits16(SetBits16(x, b), b) == x
  {
  }
}
