/*
 * The interrupt routing of the PCIe carriers driven through Linux UIO
 * (Tamc220 and APCIe8650). Each driver file keeps one static carrierISR
 * table of four (ISR, param) pairs that intConnect overwrites, and starts
 * a thread that waits on the UIO device for an interrupt count, reports
 * counts it skipped, and then makes one pass over the slots, calling the
 * ISR of every slot whose two bits in the interrupt-pending word are not
 * both clear. The ISRs themselves are foreign code: the model records each
 * call, with the slot it was made for, in a trace.
 */
module CarrierIsr {
  import opened IpacBase

  /** carrierISR.slots has four entries on every carrier. */
  const ISR_SLOTS := 4

  const NULL := 0

  /** The thread's count before its first wake-up. */
  const FIRST_OLDICOUNT := 10

  /** read() on the UIO device returns the 4-byte interrupt count. */
  const COUNT_BYTES := 4

  /** One carrierISR entry: the routine and its parameter (NULL routine: none connected). */
  datatype Isr = Isr(routine: int, param: int)

  /** One ISR call made by the dispatch pass, for the slot it served. */
  datatype Call = Call(slot: nat, routine: int, param: int)

  /** The static table before any intConnect: zero-initialised, so no routine. */
  function Unconnected(): (t: seq<Isr>)
    ensures |t| == ISR_SLOTS
  {
    seq(ISR_SLOTS, _ => Isr(NULL, 0))
  }

  // ------------------------------------------------ the control byte

  type Byte = x: int | 0 <= x < 0x100

  /** Bit 0x04 of the first byte of the I/O window, the IP interrupt enable (APC_INT_ENABLE). */
  predicate IntEnabled(b: Byte) {
    (b / 4) % 2 == 1
  }

  /** The byte with bit 0x04 taken out. */
  function OtherBits(b: Byte): int {
    if IntEnabled(b) then b - 4 else b
  }

  /** `*ioBase |= 0x04` */
  function WithIntEnable(b: Byte): (r: Byte)
    ensures IntEnabled(r) && OtherBits(r) == OtherBits(b)
  {
    if IntEnabled(b) then b else b + 4
  }

  /** `*ioBase &= ~0x04` */
  function WithoutIntEnable(b: Byte): (r: Byte)
    ensures !IntEnabled(r) && OtherBits(r) == OtherBits(b)
  {
    if IntEnabled(b) then b - 4 else b
  }

  // ---------------------------------------------------- the pending word

  /** 0x03 << (slot * 2): the two interrupt lines of a slot in the pending word. */
  function SlotMask(slot: nat): bv16
    requires slot < ISR_SLOTS
  {
    if slot == 0 then 0x3 else if slot == 1 then 0xC else if slot == 2 then 0x30 else 0xC0
  }

  predicate Pending(ipr: bv16, slot: nat)
    requires slot < ISR_SLOTS
  {
    ipr & SlotMask(slot) != 0
  }

  /** The mask is the shift the drivers write. */
  lemma SlotMaskIsShift(slot: nat)
    requires slot < ISR_SLOTS
    ensures SlotMask(slot) == 0x3 << (2 * slot)
  {
  }

  // --------------------------------------------------- one dispatch pass

  /**
   * The calls of one pass over slots 0 .. |iprs| - 1, in that order, where
   * iprs[s] is the pending word the pass tests for slot s.
   */
  function Fired(table: seq<Isr>, iprs: seq<bv16>): (calls: seq<Call>)
    requires |iprs| <= |table| && |iprs| <= ISR_SLOTS
    ensures |calls| <= |iprs|
    ensures forall i :: 0 <= i < |calls| ==> calls[i].slot < |iprs|
    decreases |iprs|
  {
    if iprs == [] then []
    else
      var k := |iprs| - 1;
      Fired(table, iprs[..k]) + FiredAt(table, iprs[k], k)
  }

  /** The call slot k makes: its ISR with its parameter, when it is pending and connected. */
  function FiredAt(table: seq<Isr>, ipr: bv16, k: nat): (calls: seq<Call>)
    requires k < |table| && k < ISR_SLOTS
  {
    if Pending(ipr, k) && table[k].routine != NULL then [Call(k, table[k].routine, table[k].param)] else []
  }

  predicate Ascending(calls: seq<Call>) {
    forall i, j :: 0 <= i < j < |calls| ==> calls[i].slot < calls[j].slot
  }

  /** The slots are served in ascending order, each at most once. */
  lemma {:induction false} FiredAscending(table: seq<Isr>, iprs: seq<bv16>)
    requires |iprs| <= |table| && |iprs| <= ISR_SLOTS
    ensures Ascending(Fired(table, iprs))
    decreases |iprs|
  {
    if iprs != [] {
      var k := |iprs| - 1;
      FiredAscending(table, iprs[..k]);
      var pre := Fired(table, iprs[..k]);
      var all := Fired(table, iprs);
      assert all == pre + FiredAt(table, iprs[k], k);
      assert forall i :: 0 <= i < |pre| ==> all[i] == pre[i] && pre[i].slot < k;
      assert |all| <= |pre| + 1 && forall j :: |pre| <= j < |all| ==> all[j].slot == k;

    }
  }

  /** Every call is the ISR connected to a pending slot, with that slot's parameter. */
  lemma {:induction false} FiredSound(table: seq<Isr>, iprs: seq<bv16>, c: Call)
    requires |iprs| <= |table| && |iprs| <= ISR_SLOTS
    requires c in Fired(table, iprs)
    ensures c.slot < |iprs| && Pending(iprs[c.slot], c.slot)
    ensures c.routine != NULL && table[c.slot] == Isr(c.routine, c.param)
    decreases |iprs|
  {
    var k := |iprs| - 1;
    assert Fired(table, iprs) == Fired(table, iprs[..k]) + FiredAt(table, iprs[k], k);
    if c !in FiredAt(table, iprs[k], k) {
      FiredSound(table, iprs[..k], c);
      assert iprs[..k][c.slot] == iprs[c.slot];
    }
  }

  /** Every pending slot with a routine connected is called. */
  lemma {:induction false} FiredComplete(table: seq<Isr>, iprs: seq<bv16>, s: nat)
    requires |iprs| <= |table| && |iprs| <= ISR_SLOTS
    requires s < |iprs| && Pending(iprs[s], s) && table[s].routine != NULL
    ensures Call(s, table[s].routine, table[s].param) in Fired(table, iprs)
    decreases |iprs|
  {
    var k := |iprs| - 1;
    if s < k {
      FiredComplete(table, iprs[..k], s);
    }
  }

  /** Before any intConnect a pass calls nothing, whatever is pending. */
  lemma UnconnectedSilent(iprs: seq<bv16>)
    requires |iprs| <= ISR_SLOTS
    ensures Fired(Unconnected(), iprs) == []
  {
    if Fired(Unconnected(), iprs) != [] {
      FiredSound(Unconnected(), iprs, Fired(Unconnected(), iprs)[0]);
    }
  }

  /** With nothing pending a pass calls nothing. */
  lemma {:induction false} QuietPass(table: seq<Isr>, iprs: seq<bv16>)
    requires |iprs| <= |table| && |iprs| <= ISR_SLOTS
    requires forall s :: 0 <= s < |iprs| ==> iprs[s] == 0
    ensures Fired(table, iprs) == []
    decreases |iprs|
  {
    if iprs != [] {
      QuietPass(table, iprs[..|iprs| - 1]);
    }
  }

  /**
   * After intConnect(slot, routine, param) the pass calls routine(param)
   * whenever the slot is pending; the calls for the other slots are those
   * of the old table.
   */
  lemma ConnectedSlotFires(table: seq<Isr>, iprs: seq<bv16>, slot: nat, routine: int, param: int)
    requires |iprs| <= |table| && |iprs| <= ISR_SLOTS && slot < |iprs|
    requires routine != NULL && Pending(iprs[slot], slot)
    ensures Call(slot, routine, param) in Fired(table[slot := Isr(routine, param)], iprs)
  {
    FiredComplete(table[slot := Isr(routine, param)], iprs, slot);
  }

  lemma {:induction false} OtherSlotsUnchanged(table: seq<Isr>, iprs: seq<bv16>, slot: nat, isr: Isr)
    requires |iprs| <= |table| && |iprs| <= ISR_SLOTS && slot < |table|
    ensures var before, after := Fired(table, iprs), Fired(table[slot := isr], iprs);
      forall c: Call :: c.slot != slot ==> (c in before <==> c in after)
    decreases |iprs|
  {
    if iprs != [] {
      var k := |iprs| - 1;
      OtherSlotsUnchanged(table, iprs[..k], slot, isr);
      assert k != slot ==> FiredAt(table, iprs[k], k) == FiredAt(table[slot := isr], iprs[k], k);
    }
  }

  /** The same word tested for each of n slots (a pass that reads the pending register once). */
  function Repeat(ipr: bv16, n: nat): (iprs: seq<bv16>)
    ensures |iprs| == n && forall s :: 0 <= s < n ==> iprs[s] == ipr
  {
    seq(n, _ => ipr)
  }

  // --------------------------------------------------- missed interrupts

  /** The thread reports a gap when the count jumped by more than one. */
  predicate Missed(oldicount: int, icount: int) {
    oldicount + 1 < icount
  }

  /** The counts that went by unseen between two wake-ups. */
  function Between(oldicount: int, icount: int): set<int> {
    set k | oldicount < k < icount && Unseen(oldicount, icount, k)
  }

  /**
   * Count k lies strictly between the two counts the thread saw. Between
   * states the range itself, which bounds the set; this predicate gives
   * its quantifier a term to trigger on.
   */
  predicate Unseen(oldicount: int, icount: int, k: int) {
    oldicount < k < icount
  }

  /** A gap is reported exactly when some count went by unseen. */
  lemma MissedIffSkipped(oldicount: int, icount: int)
    ensures Missed(oldicount, icount) <==> Between(oldicount, icount) != {}
  {
    if Missed(oldicount, icount) {
      assert oldicount + 1 in Between(oldicount, icount);
    }
  }

  /** The number the message reports as written: (icount - oldicount) + 1. */
  function MissedAsWritten(oldicount: int, icount: int): int {
    (icount - oldicount) + 1
  }

  /** The number of counts that went by unseen. */
  function Skipped(oldicount: int, icount: int): (n: nat)
    requires oldicount < icount
    ensures n == |Between(oldicount, icount)|
  {
    SkippedCounts(oldicount, icount);
    icount - oldicount - 1
  }

  lemma {:induction false} SkippedCounts(oldicount: int, icount: int)
    requires oldicount < icount
    ensures |Between(oldicount, icount)| == icount - oldicount - 1
    decreases icount - oldicount
  {
    if oldicount + 1 < icount {
      SkippedCounts(oldicount, icount - 1);
      assert Between(oldicount, icount) == Between(oldicount, icount - 1) + {icount - 1};
    } else {
      assert Between(oldicount, icount) == {};
    }
  }

  /** As written the message overstates every gap by two: from count 10 to 12 only 11 was missed, and it says 3. */
  lemma MissedAsWrittenOverstates(oldicount: int, icount: int)
    requires Missed(oldicount, icount)
    ensures MissedAsWritten(oldicount, icount) == Skipped(oldicount, icount) + 2
    ensures Between(10, 12) == {11} && MissedAsWritten(10, 12) == 3
  {
    assert Between(10, 12) == {11} by {
      forall k | k in Between(10, 12) ensures k == 11 { }
    }
  }

  // ------------------------------------------------------------ classes

  /** The file's static carrierISR table, shared by every carrier the driver creates. */
  class IsrTable {
    const slots: array<Isr>

    constructor ()
      ensures fresh(slots) && slots[..] == Unconnected()
    {
      slots := new Isr[ISR_SLOTS](_ => Isr(NULL, 0));
    }

    /** intConnect: overwrite the slot's entry (the last call wins); the vector is ignored. */
    method Connect(slot: nat, routine: int, param: int) returns (st: Status)
      requires slot < slots.Length
      modifies slots
      ensures slots[..] == old(slots[..])[slot := Isr(routine, param)]
      ensures st == OK
    {
      slots[slot] := Isr(routine, param);
      st := OK;
    }
  }

  /** The waiting thread: its last interrupt count, the gaps it reported and the ISR calls it made. */
  class WaitThread {
    const table: IsrTable
    var oldicount: int
    var reported: seq<int>
    var calls: seq<Call>

    constructor (table: IsrTable)
      ensures this.table == table && oldicount == FIRST_OLDICOUNT && reported == [] && calls == []
    {
      this.table := table;
      oldicount := FIRST_OLDICOUNT;
      reported := [];
      calls := [];
    }

    /**
     * The head of the loop after read(): report a gap, remember the count
     * (even from a failed read), and keep running only when read returned
     * the four bytes of a count.
     */
    method Wake(err: int, icount: int) returns (running: bool)
      modifies this`oldicount, this`reported
      ensures running <==> err == COUNT_BYTES
      ensures oldicount == icount
      ensures reported == old(reported) + (if Missed(old(oldicount), icount) then [Skipped(old(oldicount), icount)] else [])
    {
      if oldicount + 1 < icount {
        reported := reported + [Skipped(oldicount, icount)];
      }
      oldicount := icount;
      running := err == COUNT_BYTES;
    }

    /** The "figure out which slot" loop, testing iprs[slot] for each slot. */
    method Pass(iprs: seq<bv16>)
      requires |iprs| <= table.slots.Length && |iprs| <= ISR_SLOTS
      modifies this`calls
      ensures calls == old(calls) + Fired(table.slots[..], iprs)
    {
      ghost var t := table.slots[..];
      var slot := 0;
      while slot < |iprs|
        invariant 0 <= slot <= |iprs|
        invariant calls == old(calls) + Fired(t, iprs[..slot])
      {
        assert iprs[..slot + 1][..slot] == iprs[..slot];
        assert Fired(t, iprs[..slot + 1]) == Fired(t, iprs[..slot]) + FiredAt(t, iprs[slot], slot);
        if Pending(iprs[slot], slot) {
          if table.slots[slot].routine != NULL {
            calls := calls + [Call(slot, table.slots[slot].routine, table.slots[slot].param)];
          }
        }
        slot := slot + 1;
      }
      assert iprs[..|iprs|] == iprs;
    }
  }
}
