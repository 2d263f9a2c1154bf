/*
 * The TIP810 CAN module's PCA82C200 controller: how the driver packs a CAN
 * message (Bosch CAN 2.0 Part A: an 11-bit identifier, the RTR bit and a
 * 4-bit data length code) into the chip's two descriptor bytes and unpacks
 * it again, the message buffers the driver copies data through, and the
 * message check canWrite applies before it touches the chip.
 *
 * The C code builds the descriptors with shifts, masks and ORs on unsigned
 * chars. The model writes the same packing arithmetically: the fields sit
 * in disjoint bit ranges, so each OR is a sum, a left shift by k is a
 * product with 2^k and a right shift a quotient.
 */
module Tip810Frame {

  /** CAN_IDENTIFIERS: an 11-bit identifier space. */
  const CAN_IDENTIFIERS := 2048
  /** CAN_DATA_SIZE: a frame carries at most 8 data bytes. */
  const CAN_DATA_SIZE := 8

  /** The rtr field of canMessage_t: SEND is a data frame, RTR a remote request. */
  const SEND := 0
  const RTR := 1

  /** PCA82C200 command register bits. */
  const PCA_CMR_TR := 0x01    // transmission request
  const PCA_CMR_RRB := 0x04   // release receive buffer

  /** An unsigned char register or field. */
  type Byte = x: int | 0 <= x < 256

  /**
   * canMessage_t: the identifier is an unsigned short, the length an
   * unsigned char, and data holds CAN_DATA_SIZE bytes. rtr is a C enum and
   * may hold any int.
   */
  datatype CanMessage = CanMessage(identifier: int, rtr: int, length: int, data: seq<int>)

  /** The values a canMessage_t's fields can hold at all. */
  predicate Stored(m: CanMessage) {
    0 <= m.identifier < 0x10000 && 0 <= m.length < 256 && |m.data| == CAN_DATA_SIZE &&
    forall i :: 0 <= i < |m.data| ==> 0 <= m.data[i] < 256
  }

  /**
   * The status codes of the CAN layer. The first four are canBus.h's
   * S_can_* codes; the next four are the S_t810_* codes of drvTip810.h,
   * which is not part of this model; Errno stands for the errno a failed
   * malloc or semaphore wait leaves behind, and Ipac for a status passed
   * through from the IPAC core.
   */
  datatype CanStatus =
    | Ok
    | BadMessage        // S_can_badMessage
    | BadAddress        // S_can_badAddress
    | NoDevice          // S_can_noDevice
    | NoMessage         // S_can_noMessage
    | BadBusRate        // S_t810_badBusRate
    | DuplicateDevice   // S_t810_duplicateDevice
    | BadDevice         // S_t810_badDevice
    | TransmitterBusy   // S_t810_transmitterBusy
    | Errno
    | Ipac(code: int)

  /** The messages canWrite agrees to send. */
  predicate Sendable(m: CanMessage) {
    m.identifier < CAN_IDENTIFIERS && m.length <= CAN_DATA_SIZE && (m.rtr == SEND || m.rtr == RTR)
  }

  /** canWrite's message check. */
  function CheckMessage(m: CanMessage): (st: CanStatus)
    ensures st == Ok || st == BadMessage
  {
    if m.identifier >= CAN_IDENTIFIERS || m.length > CAN_DATA_SIZE || (m.rtr != SEND && m.rtr != RTR)
    then BadMessage
    else Ok
  }

  /** canWrite lets a message through exactly when it is Sendable. */
  lemma CheckMessageAccepts(m: CanMessage)
    ensures CheckMessage(m) == Ok <==> Sendable(m)
    ensures CheckMessage(m) == BadMessage <==> !Sendable(m)
  {
  }

  // ---------------------------------------------------------------------
  // Descriptor bytes
  // ---------------------------------------------------------------------

  /** putTxMessage's descriptor 0: the identifier shifted right by 3, kept to a byte. */
  function TxDesc0(id: int): (d: Byte)
    requires 0 <= id < 0x10000
    ensures id < CAN_IDENTIFIERS ==> d == id / 8
  {
    (id / 8) % 256
  }

  /**
   * putTxMessage's descriptor 1: the low three identifier bits in bits 7..5,
   * the RTR flag 0x10 for anything but a SEND frame, the length's low four
   * bits in bits 3..0.
   */
  function TxDesc1(id: int, rtr: int, length: int): (d: Byte)
    requires 0 <= id < 0x10000 && 0 <= length < 256
    ensures d / 32 == id % 8
    ensures (d / 16) % 2 == (if rtr == SEND then 0 else 1)
    ensures Dlc(d) == length % 16
  {
    (id % 8) * 32 + (if rtr == SEND then 0 else 16) + length % 16
  }

  /** getRxMessage's identifier: descriptor 0 shifted left by 3, then bits 7..5 of descriptor 1. */
  function RxIdentifier(d0: Byte, d1: Byte): (id: int)
    ensures 0 <= id < CAN_IDENTIFIERS
  {
    d0 * 8 + d1 / 32
  }

  /** The data length code: the low four bits of descriptor 1. */
  function Dlc(d1: Byte): int { d1 % 16 }

  /** getRxMessage's rtr: RTR when bit 0x10 of descriptor 1 is set. */
  function RxRtr(d1: Byte): int { if (d1 / 16) % 2 == 1 then RTR else SEND }

  /**
   * Packing then unpacking gives back an 11-bit identifier, the RTR
   * decision and any 4-bit length.
   */
  lemma DescriptorRoundTrip(id: int, rtr: int, length: int)
    requires 0 <= id < CAN_IDENTIFIERS && 0 <= length < 16
    ensures RxIdentifier(TxDesc0(id), TxDesc1(id, rtr, length)) == id
    ensures Dlc(TxDesc1(id, rtr, length)) == length
    ensures RxRtr(TxDesc1(id, rtr, length)) == (if rtr == SEND then SEND else RTR)
  {
    var d1 := TxDesc1(id, rtr, length);
    var f := if rtr == SEND then 0 else 16;
    assert d1 == (id % 8) * 32 + (f + length);
    assert 0 <= f + length < 32;
    assert d1 / 32 == id % 8;
    assert d1 % 32 == f + length;
    assert d1 / 16 == (id % 8) * 2 + f / 16;
  }

  /** Unpacking then packing gives back every pair of descriptor bytes. */
  lemma DescriptorBack(d0: Byte, d1: Byte)
    ensures TxDesc0(RxIdentifier(d0, d1)) == d0
    ensures TxDesc1(RxIdentifier(d0, d1), RxRtr(d1), Dlc(d1)) == d1
  {
    var id := RxIdentifier(d0, d1);
    assert id / 8 == d0 && id % 8 == d1 / 32;
    var low := d1 % 32;
    assert d1 == (d1 / 32) * 32 + low;
    assert low == (low / 16) * 16 + low % 16;
    assert d1 / 16 == (d1 / 32) * 2 + low / 16;
    assert low % 16 == d1 % 16;
  }

  // ---------------------------------------------------------------------
  // Data bytes
  // ---------------------------------------------------------------------

  /**
   * The transmit buffer's data registers after putTxMessage: a SEND frame
   * overwrites the first length registers with its data, a remote request
   * leaves them alone.
   */
  function TxData(m: CanMessage, regs: seq<int>): (r: seq<int>)
    requires Stored(m) && m.length <= CAN_DATA_SIZE && |regs| == CAN_DATA_SIZE
    ensures |r| == CAN_DATA_SIZE
    ensures forall i :: 0 <= i < CAN_DATA_SIZE ==> r[i] == if m.rtr == SEND && i < m.length then m.data[i] else regs[i]
  {
    if m.rtr == SEND then m.data[..m.length] + regs[m.length..] else regs
  }

  /** The data registers are unsigned shorts; a message byte keeps their low eight bits. */
  function Low(regs: seq<int>): (r: seq<int>)
    ensures |r| == |regs|
    ensures forall i :: 0 <= i < |r| ==> r[i] == regs[i] % 256
  {
    if regs == [] then [] else Low(regs[..|regs| - 1]) + [regs[|regs| - 1] % 256]
  }

  /**
   * How many data bytes getRxMessage copies AS WRITTEN: the whole data
   * length code, which the chip reports as up to 15.
   */
  function RxCopyAsWritten(d1: Byte): int { Dlc(d1) }

  /** Whether getRxMessage AS WRITTEN stores into data[i] for a data frame. */
  predicate WritesAsWritten(d1: Byte, i: int) { 0 <= i < RxCopyAsWritten(d1) }

  /**
   * A data frame whose length code is 15 (descriptor 1 = 0x0F) makes the
   * copy loop write data[8] .. data[14], past the end of canMessage_t.data.
   */
  lemma RxCopyOverruns()
    ensures RxRtr(0x0F) == SEND
    ensures WritesAsWritten(0x0F, 8) && WritesAsWritten(0x0F, 14)
    ensures 14 >= CAN_DATA_SIZE
  {
  }

  /**
   * The corrected length: a data length code above 8 still means 8 data
   * bytes in a CAN 2.0 data frame, so getRxMessage reports and
   * copies at most CAN_DATA_SIZE bytes.
   */
  function RxLength(d1: Byte): (n: int)
    ensures 0 <= n <= CAN_DATA_SIZE
    ensures n <= Dlc(d1)
    ensures Dlc(d1) <= CAN_DATA_SIZE ==> n == Dlc(d1)
  {
    if Dlc(d1) <= CAN_DATA_SIZE then Dlc(d1) else CAN_DATA_SIZE
  }

  /**
   * The message getRxMessage fills in from the receive buffer. Fields it
   * does not write keep what buffer held: all data of a remote request, and
   * the data past the length of a data frame.
   */
  function RxMessage(d0: Byte, d1: Byte, regs: seq<int>, buffer: CanMessage): (r: CanMessage)
    requires |regs| == CAN_DATA_SIZE && |buffer.data| == CAN_DATA_SIZE
    ensures 0 <= r.identifier < CAN_IDENTIFIERS && 0 <= r.length <= CAN_DATA_SIZE && |r.data| == CAN_DATA_SIZE
    ensures r.rtr == RTR ==> r.data == buffer.data
  {
    var n := RxLength(d1);
    CanMessage(RxIdentifier(d0, d1), RxRtr(d1), n,
               if RxRtr(d1) == RTR then buffer.data else Low(regs[..n]) + buffer.data[n..])
  }

  /**
   * Every message getRxMessage produces is a well-formed canMessage_t that
   * canWrite would accept, whatever the chip's registers held.
   */
  lemma ReceivedIsSendable(d0: Byte, d1: Byte, regs: seq<int>, buffer: CanMessage)
    requires |regs| == CAN_DATA_SIZE && Stored(buffer)
    ensures Stored(RxMessage(d0, d1, regs, buffer))
    ensures Sendable(RxMessage(d0, d1, regs, buffer))
  {
    var m := RxMessage(d0, d1, regs, buffer);
    var n := RxLength(d1);
    if RxRtr(d1) == SEND {
      forall i | 0 <= i < |m.data| ensures 0 <= m.data[i] < 256 {
        if i < n {
          assert m.data[i] == Low(regs[..n])[i];
        } else {
          assert m.data[i] == buffer.data[i];
        }
      }
    }
  }

  /**
   * A message canWrite accepts, sent through the transmit buffer and read
   * back from a receive buffer holding the same bytes, arrives unchanged:
   * identifier, kind, length, and the data bytes of a data frame.
   */
  lemma LoopBack(m: CanMessage, txRegs: seq<int>, buffer: CanMessage)
    requires Stored(m) && Sendable(m) && |txRegs| == CAN_DATA_SIZE && |buffer.data| == CAN_DATA_SIZE
    ensures var r := RxMessage(TxDesc0(m.identifier), TxDesc1(m.identifier, m.rtr, m.length),
                               TxData(m, txRegs), buffer);
            r.identifier == m.identifier && r.rtr == m.rtr && r.length == m.length &&
            (m.rtr == SEND ==> r.data[..m.length] == m.data[..m.length])
  {
    var d1 := TxDesc1(m.identifier, m.rtr, m.length);
    DescriptorRoundTrip(m.identifier, m.rtr, m.length);
    assert RxLength(d1) == m.length;
    if m.rtr == SEND {
      var regs := TxData(m, txRegs);
      var r := RxMessage(TxDesc0(m.identifier), d1, regs, buffer);
      assert regs[..m.length] == m.data[..m.length];
      forall i | 0 <= i < m.length ensures r.data[i] == m.data[i] {
        assert r.data[i] == Low(regs[..m.length])[i];
      }
    }
  }

  // ---------------------------------------------------------------------
  // The controller
  // ---------------------------------------------------------------------

  /**
   * pca82c200_t: the controller's registers, of which the driver uses the
   * control, command, status, interrupt, acceptance, bus timing and output
   * control registers and the two message buffers. Each buffer is two
   * descriptor bytes and eight unsigned short data registers.
   */
  class Pca82c200 {
    var control: int
    var command: int
    var status: int
    var interrupt: int
    var acceptanceCode: int
    var acceptanceMask: int
    var busTiming0: int
    var busTiming1: int
    var outputControl: int
    var txDesc0: int
    var txDesc1: int
    var rxDesc0: Byte
    var rxDesc1: Byte
    const txData: array<int>
    const rxData: array<int>

    /** Both buffers have CAN_DATA_SIZE data registers, and they are distinct. */
    predicate Valid() {
      txData.Length == CAN_DATA_SIZE && rxData.Length == CAN_DATA_SIZE && txData != rxData
    }

    /** A controller with all registers zero. */
    constructor ()
      ensures Valid()
      ensures rxDesc0 == 0 && rxDesc1 == 0 && status == 0 && interrupt == 0
    {
      control, command, status, interrupt := 0, 0, 0, 0;
      acceptanceCode, acceptanceMask, busTiming0, busTiming1, outputControl := 0, 0, 0, 0, 0;
      txDesc0, txDesc1, rxDesc0, rxDesc1 := 0, 0, 0, 0;
      txData := new int[CAN_DATA_SIZE](_ => 0);
      rxData := new int[CAN_DATA_SIZE](_ => 0);
    }

    /**
     * putTxMessage: write the descriptors and, for a data frame, the data
     * bytes into the transmit buffer, then request transmission. Its caller
     * canWrite has already limited the length to CAN_DATA_SIZE.
     */
    method PutTxMessage(m: CanMessage)
      requires Valid() && Stored(m) && m.length <= CAN_DATA_SIZE
      modifies this`txDesc0, this`txDesc1, this`command, txData
      ensures txDesc0 == TxDesc0(m.identifier) && txDesc1 == TxDesc1(m.identifier, m.rtr, m.length)
      ensures txData[..] == TxData(m, old(txData[..]))
      ensures command == PCA_CMR_TR
    {
      var d0 := m.identifier / 8 % 256;
      var d1 := (m.identifier % 8) * 32 + m.length % 16;
      if m.rtr == SEND {
        var i := 0;
        while i < m.length
          invariant 0 <= i <= m.length
          invariant txData[..i] == m.data[..i]
          invariant txData[i..] == old(txData[..])[i..]
        {
          txData[i] := m.data[i];
          i := i + 1;
        }
        assert txData[..] == txData[..m.length] + txData[m.length..];
      } else {
        d1 := d1 + 16;
      }
      txDesc0, txDesc1 := d0, d1;
      command := PCA_CMR_TR;
    }

    /**
     * getRxMessage's copy loop: the first n data registers, cut to bytes,
     * over the message's old data.
     */
    method CopyRx(n: int, before: seq<int>) returns (data: seq<int>)
      requires Valid() && 0 <= n <= CAN_DATA_SIZE && |before| == CAN_DATA_SIZE
      ensures data == Low(rxData[..n]) + before[n..]
    {
      data := before;
      var i := 0;
      while i < n
        invariant 0 <= i <= n && |data| == CAN_DATA_SIZE
        invariant data[..i] == Low(rxData[..i])
        invariant data[i..] == before[i..]
      {
        assert rxData[..i + 1] == rxData[..i] + [rxData[i]];
        data := data[i := rxData[i] % 256];
        i := i + 1;
      }
      assert data == data[..n] + data[n..];
    }

    /**
     * getRxMessage, corrected: unpack the receive buffer's descriptors,
     * copy at most CAN_DATA_SIZE data bytes of a data frame into the
     * message, then release the receive buffer. buffer is the message
     * structure before the call.
     */
    method GetRxMessage(buffer: CanMessage) returns (m: CanMessage)
      requires Valid() && |buffer.data| == CAN_DATA_SIZE
      modifies this`command
      ensures m == RxMessage(rxDesc0, rxDesc1, rxData[..], buffer)
      ensures command == PCA_CMR_RRB
    {
      var d0: int, d1: int := rxDesc0, rxDesc1;
      var length := RxLength(d1);
      var data := buffer.data;
      var rtr := RTR;
      if (d1 / 16) % 2 != 1 {
        rtr := SEND;
        data := CopyRx(length, buffer.data);
      }
      m := CanMessage(d0 * 8 + d1 / 32, rtr, length, data);
      command := PCA_CMR_RRB;
    }
  }
}
