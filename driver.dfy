/** The driver's global state as one object: the descriptor statics TD0, TD1,
    RD0, RD1, the cursors TDPTR and RDPTR, and the parts of the Ethernet DMA
    register block the driver reads or writes after bring-up. Every operation
    is proved against the ring functions of module Descriptors. */
module Driver {
  import opened Descriptors

  /** DMASR.TPS (bits 22:20) of a transmit process suspended because the
      descriptor under it belongs to software. */
  const TPS_SUSPENDED: bv3 := 6  // 0b110

  /** DMASR.RPS (bits 19:17) of a receive process suspended because the
      descriptor under it belongs to software. */
  const RPS_SUSPENDED: bv3 := 4  // 0b100

  /** The RPS value release_packet compares with: the TPS encoding of
      suspended, which in RPS is a reserved value alongside 0b010. */
  const RPS_TESTED: bv3 := 6  // 0b110

  /** The RPS values the receive process never reports. */
  predicate RpsReserved(rps: bv3)
  {
    rps == 2 || rps == 6
  }

  /** The value written to DMATPDR / DMARPDR to demand a poll. */
  const POLL_DEMAND: bv32 := 0xFFFF_FFFF

  /** smoltcp Device::mtu. */
  const MTU: nat := 1536

  /** A write the driver makes to the DMA register block after bring-up. */
  datatype DmaWrite =
    | SetTbus                          // DMASR written with only TBUS set
    | TransmitPollDemand(value: bv32)  // DMATPDR
    | SetRbus                          // DMASR written with only RBUS set
    | ReceivePollDemand(value: bv32)   // DMARPDR

  /** The restart transmit_packet issues on a suspended transmit DMA: clear
      TBUS, then demand a poll; nothing in any other state. */
  function TxRestart(tps: bv3): (w: seq<DmaWrite>)
    ensures w != [] <==> tps == TPS_SUSPENDED
    ensures tps == TPS_SUSPENDED ==> w == [SetTbus, TransmitPollDemand(POLL_DEMAND)]
    ensures tps != TPS_SUSPENDED ==> w == []
  {
    if tps == TPS_SUSPENDED then [SetTbus, TransmitPollDemand(POLL_DEMAND)] else []
  }

  /** The restart release_packet issues, as written: clear RBUS, then demand a
      poll, when RPS reads 0b110. */
  function RxRestart(rps: bv3): (w: seq<DmaWrite>)
    ensures w != [] <==> rps == RPS_TESTED
    ensures rps == RPS_TESTED ==> w == [SetRbus, ReceivePollDemand(POLL_DEMAND)]
    ensures rps != RPS_TESTED ==> w == []
  {
    if rps == RPS_TESTED then [SetRbus, ReceivePollDemand(POLL_DEMAND)] else []
  }

  /** As written, release_packet restarts the receive DMA only in a state the
      receive process never reports, and never when it is really suspended. */
  lemma RxRestartNeverFires(rps: bv3)
    ensures RxRestart(rps) != [] ==> RpsReserved(rps)
    ensures RxRestart(RPS_SUSPENDED) == []
  {
  }

  /** The receive restart as intended: clear RBUS and demand a poll exactly when
      the receive process is suspended. */
  function RxRestartOnSuspend(rps: bv3): (w: seq<DmaWrite>)
    ensures w != [] <==> rps == RPS_SUSPENDED
    ensures rps == RPS_SUSPENDED ==> w == [SetRbus, ReceivePollDemand(POLL_DEMAND)]
    ensures w != [] ==> !RpsReserved(rps)
  {
    if rps == RPS_SUSPENDED then [SetRbus, ReceivePollDemand(POLL_DEMAND)] else []
  }

  class EthernetDma {
    var td0: Descriptor
    var td1: Descriptor
    var tdPtr: Slot
    var rd0: Descriptor
    var rd1: Descriptor
    var rdPtr: Slot
    /** DMATDLAR and DMARDLAR: where each DMA process starts its list. */
    var txListBase: Slot
    var rxListBase: Slot
    /** DMASR.TPS and DMASR.RPS, set by the hardware. */
    var tps: bv3
    var rps: bv3
    /** The DmaWrites the driver has made since bring-up, oldest first. */
    var writes: seq<DmaWrite>

    function TxRing(): Ring
      reads this
    {
      Ring(td0, td1, tdPtr)
    }

    function RxRing(): Ring
      reads this
    {
      Ring(rd0, rd1, rdPtr)
    }

    /** Both rings stay chained, and receive word 1 keeps its control bits. */
    ghost predicate Valid()
      reads this
    {
      Chained(TxRing()) && Chained(RxRing()) && rd0.word1 == RX_CONTROL && rd1.word1 == RX_CONTROL
    }

    /** The descriptor part of mac_init, with the list base writes after it.
        mac_init ends by starting both DMA processes (DMAOMR ST and SR); the
        process states they report from then on are the hardware's, given here
        as `tps0` and `rps0`. */
    constructor MacInit(tps0: bv3, rps0: bv3)
      ensures Valid()
      ensures TxRing() == TxSetup() && RxRing() == RxSetup()
      ensures txListBase == 0 && rxListBase == 0
      ensures tps == tps0 && rps == rps0 && writes == []
    {
      td0 := Descriptor(TDES0_TCH, BUFFER_SIZE, 0, 1);
      td1 := Descriptor(TDES0_TCH, BUFFER_SIZE, 1, 0);
      tdPtr := 0;
      rd0 := Descriptor(OWN, RX_CONTROL, 0, 1);
      rd1 := Descriptor(OWN, RX_CONTROL, 1, 0);
      rdPtr := 0;
      txListBase := 0;
      rxListBase := 0;
      tps, rps := tps0, rps0;
      writes := [];
    }

    /** rxne: RDPTR follows RDPTR.rdes3, then OWN of the new current descriptor is tested. */
    method Rxne() returns (ready: bool)
      requires Valid()
      modifies this`rdPtr
      ensures Valid()
      ensures RxRing() == Poll(old(RxRing())).0 && ready == Poll(old(RxRing())).1
    {
      rdPtr := if rdPtr == 0 then rd0.next else rd1.next;
      var d := if rdPtr == 0 then rd0 else rd1;
      ready := d.word0 & OWN == 0;
    }

    /** txe: TDPTR follows TDPTR.tdes3, then OWN of the new current descriptor is tested. */
    method Txe() returns (ready: bool)
      requires Valid()
      modifies this`tdPtr
      ensures Valid()
      ensures TxRing() == Poll(old(TxRing())).0 && ready == Poll(old(TxRing())).1
    {
      tdPtr := if tdPtr == 0 then td0.next else td1.next;
      var d := if tdPtr == 0 then td0 else td1;
      ready := d.word0 & OWN == 0;
    }

    /** receive_packet: a view of the current receive descriptor's buffer, as long
        as the frame length in its word 0. */
    method ReceivePacket() returns (buf: Slice)
      ensures buf.slot == RxRing().Current().buffer
      ensures buf.len == FrameLength(RxRing().Current().word0) && buf.len < 0x4000
    {
      var d := if rdPtr == 0 then rd0 else rd1;
      buf := Slice(d.buffer, (d.word0 >> 16) & RDES0_FL_MASK);
    }

    /** get_tx_buffer: a view of `length` bytes of the current transmit descriptor's buffer. */
    method GetTxBuffer(length: Usize) returns (buf: Slice)
      ensures buf == Slice(TxRing().Current().buffer, length)
    {
      var d := if tdPtr == 0 then td0 else td1;
      buf := Slice(d.buffer, length);
    }

    /** transmit_packet: arm the descriptor of the packet's buffer, then restart a
        suspended transmit DMA. */
    method TransmitPacket(packet: Slice)
      requires Valid()
      modifies this`td0, this`td1, this`writes
      ensures Valid()
      ensures TxRing() == Commit(old(TxRing()), packet)
      ensures writes == old(writes) + TxRestart(tps)
    {
      if packet.slot == 0 {
        td0 := td0.(word1 := packet.len);
        td0 := td0.(word0 := TX_READY);
      } else {
        td1 := td1.(word1 := packet.len);
        td1 := td1.(word0 := TX_READY);
      }
      if tps == TPS_SUSPENDED {
        writes := writes + [SetTbus];
        writes := writes + [TransmitPollDemand(POLL_DEMAND)];
      }
    }

    /** release_packet: give the buffer's descriptor back to the receive DMA, then
        restart the receive DMA when RPS reads 0b110. */
    method ReleasePacket(buf: Slice)
      requires Valid()
      modifies this`rd0, this`rd1, this`writes
      ensures Valid()
      ensures RxRing() == Release(old(RxRing()), buf)
      ensures writes == old(writes) + RxRestart(rps)
    {
      if buf.slot == 0 {
        rd0 := rd0.(word0 := OWN);
      } else {
        rd1 := rd1.(word0 := OWN);
      }
      if rps == RPS_TESTED {
        writes := writes + [SetRbus];
        writes := writes + [ReceivePollDemand(POLL_DEMAND)];
      }
    }

    /** EthernetDevice::receive. */
    method Receive() returns (r: Outcome<RxBuffer>)
      requires Valid()
      modifies this`rdPtr
      ensures Valid()
      ensures RxRing() == Descriptors.Receive(old(RxRing())).0
      ensures r == Descriptors.Receive(old(RxRing())).1
    {
      var ready := Rxne();
      if ready {
        var buf := ReceivePacket();
        r := Ok(RxBuffer(buf));
      } else {
        r := Exhausted;
      }
    }

    /** EthernetDevice::transmit. */
    method Transmit(length: Usize) returns (r: Outcome<TxBuffer>)
      requires Valid()
      modifies this`tdPtr
      ensures Valid()
      ensures TxRing() == Reserve(old(TxRing()), length).0
      ensures r == Reserve(old(TxRing()), length).1
    {
      var ready := Txe();
      if ready {
        var buf := GetTxBuffer(length);
        r := Ok(TxBuffer(buf));
      } else {
        r := Exhausted;
      }
    }

    /** Drop for EthernetRxBuffer: the handle's end releases its buffer. */
    method RxBufferDrop(h: RxBuffer)
      requires Valid()
      modifies this`rd0, this`rd1, this`writes
      ensures Valid()
      ensures RxRing() == Release(old(RxRing()), h.data)
      ensures writes == old(writes) + RxRestart(rps)
    {
      ReleasePacket(h.data);
    }

    /** Drop for EthernetTxBuffer: the handle's end commits its buffer with the
        handle's length, which is the length reserved. */
    method TxBufferDrop(h: TxBuffer)
      requires Valid()
      modifies this`td0, this`td1, this`writes
      ensures Valid()
      ensures TxRing() == Commit(old(TxRing()), h.data)
      ensures writes == old(writes) + TxRestart(tps)
    {
      TransmitPacket(h.data);
    }

    /** The receive DMA writing back a descriptor it owns (hardware, not firmware). */
    method DmaReceiveDone(k: Slot, status: bv32)
      requires Valid()
      requires HardwareOwned(RxRing().At(k)) && status & OWN == 0
      modifies this`rd0, this`rd1
      ensures Valid()
      ensures RxRing() == WriteBack(old(RxRing()), k, status)
    {
      if k == 0 {
        rd0 := rd0.(word0 := status);
      } else {
        rd1 := rd1.(word0 := status);
      }
    }

    /** The transmit DMA writing back a descriptor it owns (hardware, not firmware). */
    method DmaTransmitDone(k: Slot, status: bv32)
      requires Valid()
      requires HardwareOwned(TxRing().At(k)) && status & OWN == 0
      modifies this`td0, this`td1
      ensures Valid()
      ensures TxRing() == WriteBack(old(TxRing()), k, status)
    {
      if k == 0 {
        td0 := td0.(word0 := status);
      } else {
        td1 := td1.(word0 := status);
      }
    }

    /** The DMA processes changing state (hardware, not firmware). */
    method DmaProcessStates(tps': bv3, rps': bv3)
      requires Valid()
      modifies this`tps, this`rps
      ensures Valid()
      ensures tps == tps' && rps == rps'
    {
      tps, rps := tps', rps';
    }
  }

  /** Receive one frame and drop its handle at once: the descriptor goes back to
      the hardware, and the restart of release_packet follows. */
  method ReceiveAndRelease(dma: EthernetDma) returns (r: Outcome<RxBuffer>)
    requires dma.Valid()
    modifies dma`rdPtr, dma`rd0, dma`rd1, dma`writes
    ensures dma.Valid()
    ensures r == Descriptors.Receive(old(dma.RxRing())).1
    ensures r.Ok? ==> dma.RxRing() == Release(Descriptors.Receive(old(dma.RxRing())).0, r.value.data)
    ensures r.Ok? ==> dma.writes == old(dma.writes) + RxRestart(dma.rps)
    ensures r.Exhausted? ==> dma.RxRing() == Descriptors.Receive(old(dma.RxRing())).0
    ensures r.Exhausted? ==> dma.writes == old(dma.writes)
  {
    r := dma.Receive();
    if r.Ok? {
      dma.RxBufferDrop(r.value);
    }
  }

  /** Bring-up with the transmit DMA suspended on the software-owned TD0, then
      one frame of `length` bytes: the frame goes into buffer 1, and its
      commit makes the restart writes. */
  method FirstTransmitAfterStart(rps0: bv3, length: Usize) returns (r: Outcome<TxBuffer>, w: seq<DmaWrite>)
    ensures r == Ok(TxBuffer(Slice(1, length)))
    ensures w == [SetTbus, TransmitPollDemand(POLL_DEMAND)]
  {
    var dma := new EthernetDma.MacInit(TPS_SUSPENDED, rps0);
    r := dma.Transmit(length);
    dma.TxBufferDrop(r.value);
    w := dma.writes;
  }
}
