/*
 * The private address table of the PCIe carriers driven through Linux UIO
 * (Tamc220 and APCIe8650): initialise maps the card's I/O window and fills
 * a [IO_SPACES][slots] table of pointers, the window's base plus a constant
 * offset per (space, slot); baseAddr is a lookup in that table.
 * Addresses are integers: the window comes from mmap and every offset lies
 * inside it, so no sum wraps.
 */
module PrivateTable {
  import opened IpacBase

  /** Rows of the table: the ID (PROM) space, then the I/O space. */
  const IO_SPACES := 2

  const NULL := 0

  /** The place of (space, slot) in the table flattened row by row. */
  function Entry(slots: nat, space: nat, slot: nat): (n: nat)
    requires space < IO_SPACES && slot < slots
    ensures n < IO_SPACES * slots
  {
    if space == 0 then slot else slots + slot
  }

  /** How many entries the fill loop has written once it reaches (space, slot). */
  function Filled(slots: nat, space: nat, slot: nat): nat {
    if space == 0 then slot else if space == 1 then slots + slot else IO_SPACES * slots + slot
  }

  /** The table for a window at ioBase; offsets is the C offset[][] table flattened the same way. */
  function Table(ioBase: int, offsets: seq<int>): (t: seq<int>)
    ensures |t| == |offsets|
    ensures forall i, j :: 0 <= i < |t| && 0 <= j < |t| ==> t[j] - t[i] == offsets[j] - offsets[i]
  {
    seq(|offsets|, n requires 0 <= n < |offsets| => ioBase + offsets[n])
  }

  // ----------------------------------------------------------- baseAddr

  /** The row baseAddr indexes with: the value of the ipac_addr_t it is given. */
  function SpaceIndex(space: AddrSpace): (n: nat)
    ensures n < 4
  {
    match space
    case ID => 0
    case IO => 1
    case IO32 => 2
    case Mem => 3
  }

  /** baseAddr as written: (*memSpaces)[space][slot], whatever the space. */
  function BaseAddrIndexAsWritten(slots: nat, slot: nat, space: AddrSpace): nat {
    SpaceIndex(space) * slots + slot
  }

  /**
   * The table has two rows, so the 32-bit I/O and the memory spaces index
   * past its end: baseAddr reads whatever lies after the table.
   */
  lemma MemSpaceOverruns(slots: nat, slot: nat)
    requires slot < slots
    ensures BaseAddrIndexAsWritten(slots, slot, IO32) >= IO_SPACES * slots
    ensures BaseAddrIndexAsWritten(slots, slot, Mem) >= IO_SPACES * slots
  {
  }

  /**
   * baseAddr as its description intends ("NULL if the module has no
   * memory"): the table entry for the ID and I/O spaces, NULL for the others.
   */
  function BaseAddrOf(table: seq<int>, slots: nat, slot: nat, space: AddrSpace): (addr: int)
    requires |table| == IO_SPACES * slots && slot < slots
    ensures space == ID ==> addr == table[Entry(slots, 0, slot)]
    ensures space == IO ==> addr == table[Entry(slots, 1, slot)]
    ensures space == IO32 || space == Mem ==> addr == NULL
  {
    match space
    case ID => table[Entry(slots, 0, slot)]
    case IO => table[Entry(slots, 1, slot)]
    case IO32 => NULL
    case Mem => NULL
  }

  /** Where the as-written index stays inside the table, the corrected lookup reads the same entry. */
  lemma BaseAddrAgrees(table: seq<int>, slots: nat, slot: nat, space: AddrSpace)
    requires |table| == IO_SPACES * slots && slot < slots
    requires BaseAddrIndexAsWritten(slots, slot, space) < IO_SPACES * slots
    ensures BaseAddrOf(table, slots, slot, space) == table[BaseAddrIndexAsWritten(slots, slot, space)]
  {
    match space
    case ID =>
    case IO =>
    case IO32 => MemSpaceOverruns(slots, slot);
    case Mem => MemSpaceOverruns(slots, slot);
  }

  // --------------------------------------------------------------- class

  /** The private_t table one initialise call allocates and fills. */
  class Private {
    const slots: nat
    const memSpaces: array<int>

    predicate Valid()
      reads this
    {
      memSpaces.Length == IO_SPACES * slots
    }

    constructor (ioBase: int, offsets: seq<int>, slots: nat)
      requires |offsets| == IO_SPACES * slots
      ensures Valid() && fresh(memSpaces) && this.slots == slots
      ensures memSpaces[..] == Table(ioBase, offsets)
    {
      this.slots := slots;
      memSpaces := new int[IO_SPACES * slots];
      new;
      FillTable(ioBase, offsets);
    }

    /** The two nested loops of initialise, over spaces and then slots. */
    method FillTable(ioBase: int, offsets: seq<int>)
      requires Valid() && |offsets| == IO_SPACES * slots
      modifies memSpaces
      ensures memSpaces[..] == Table(ioBase, offsets)
    {
      var space := 0;
      while space < IO_SPACES
        invariant 0 <= space <= IO_SPACES
        invariant forall n :: 0 <= n < Filled(slots, space, 0) ==> memSpaces[n] == ioBase + offsets[n]
      {
        var slot := 0;
        while slot < slots
          invariant 0 <= slot <= slots
          invariant forall n :: 0 <= n < Filled(slots, space, slot) ==> memSpaces[n] == ioBase + offsets[n]
        {
          memSpaces[Entry(slots, space, slot)] := ioBase + offsets[Entry(slots, space, slot)];
          slot := slot + 1;
        }
        space := space + 1;
      }
      assert memSpaces[..] == Table(ioBase, offsets);
    }

    /** baseAddr, with the ID and I/O spaces looked up and the others NULL (see Findings). */
    method BaseAddr(slot: nat, space: AddrSpace) returns (addr: int)
      requires Valid() && slot < slots
      ensures addr == BaseAddrOf(memSpaces[..], slots, slot, space)
    {
      match space {
        case ID => addr := memSpaces[Entry(slots, 0, slot)];
        case IO => addr := memSpaces[Entry(slots, 1, slot)];
        case IO32 => addr := NULL;
        case Mem => addr := NULL;
      }
    }
  }
}
