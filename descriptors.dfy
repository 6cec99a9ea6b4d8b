/** The two transmit and two receive descriptors of the STM32F7 Ethernet DMA in
    chained-descriptor mode, their ring cursors, and the buffer-ownership
    handshake between the driver and the DMA engine, stated on values.

    Raw addresses are replaced by slot indices: the buffer address in word 2
    (TBUF[k] or RBUF[k]) becomes `buffer == k`, and the next-descriptor address
    in word 3 (&TD0, &TD1, &RD0, &RD1) becomes the slot index of that
    descriptor. Word 0 and word 1 keep their 32-bit layout. */
module Descriptors {

  /** The position of a descriptor in its ring, and of the packet buffer it names. */
  type Slot = k: int | 0 <= k < 2

  /** `usize` on the 32-bit Cortex-M7 target. */
  type Usize = bv32

  /** Bytes in each statically allocated packet buffer (one row of TBUF or RBUF). */
  const BUFFER_SIZE: bv32 := 2048

  /** Word 0, bit 31: set while the descriptor and its buffer belong to the DMA engine. */
  const OWN: bv32 := 1 << 31

  // Transmit word 0 control bits.
  const TDES0_IC: bv32 := 1 << 30        // interrupt on completion
  const TDES0_LS: bv32 := 1 << 29        // last segment
  const TDES0_FS: bv32 := 1 << 28        // first segment
  const TDES0_CIC_FULL: bv32 := 3 << 22  // checksum insertion: IP header and payload
  const TDES0_TCH: bv32 := 1 << 20       // word 3 holds the next descriptor

  /** The word 0 that hands a one-segment frame to the transmit DMA. */
  const TX_READY: bv32 := OWN | TDES0_IC | TDES0_LS | TDES0_FS | TDES0_CIC_FULL | TDES0_TCH

  /** Receive word 1: word 3 holds the next descriptor, buffer 1 is BUFFER_SIZE bytes. */
  const RDES1_RCH: bv32 := 1 << 14
  const RX_CONTROL: bv32 := BUFFER_SIZE | RDES1_RCH

  /** Receive word 0, bits 16-29: the frame length written back by the DMA engine. */
  const RDES0_FL_MASK: bv32 := 0x3FFF

  /** One TDes or RDes record: words 0 and 1 as stored, words 2 and 3 as slots. */
  datatype Descriptor = Descriptor(word0: bv32, word1: bv32, buffer: Slot, next: Slot)

  predicate HardwareOwned(d: Descriptor)
  {
    d.word0 & OWN != 0
  }

  /** A ring: its two descriptors (statics TD0/TD1 or RD0/RD1) and its cursor (TDPTR or RDPTR). */
  datatype Ring = Ring(d0: Descriptor, d1: Descriptor, cursor: Slot)
  {
    function At(k: Slot): Descriptor
    {
      if k == 0 then d0 else d1
    }

    function Current(): Descriptor
    {
      At(cursor)
    }

    /** The ring with descriptor k replaced by d. */
    function Put(k: Slot, d: Descriptor): (r: Ring)
      ensures r.At(k) == d && r.At(1 - k) == At(1 - k) && r.cursor == cursor
    {
      if k == 0 then this.(d0 := d) else this.(d1 := d)
    }
  }

  /** The shape mac_init gives a ring and nothing later changes: the next links
      form the closed 2-cycle 0 -> 1 -> 0, and descriptor k names buffer k. */
  predicate Chained(r: Ring)
  {
    r.d0.next == 1 && r.d1.next == 0 && r.d0.buffer == 0 && r.d1.buffer == 1
  }

  /** On a chained ring, following next twice from either descriptor returns to it. */
  lemma CycleCloses(r: Ring, k: Slot)
    requires Chained(r)
    ensures r.At(k).next != k
    ensures r.At(r.At(k).next).next == k
    ensures r.At(k).buffer == k
  {
  }

  /** The transmit ring after mac_init: both descriptors software-owned, chained,
      with a full-buffer length, and the cursor on TD0. */
  function TxSetup(): (r: Ring)
    ensures Chained(r) && r.cursor == 0
    ensures forall k: Slot :: !HardwareOwned(r.At(k)) && r.At(k).word0 & TDES0_TCH != 0
    ensures forall k: Slot :: r.At(k).word1 == BUFFER_SIZE
  {
    Ring(Descriptor(TDES0_TCH, BUFFER_SIZE, 0, 1), Descriptor(TDES0_TCH, BUFFER_SIZE, 1, 0), 0)
  }

  /** The receive ring after mac_init: both descriptors hardware-owned with no
      status bits, chained, BUFFER_SIZE-byte buffers, and the cursor on RD0. */
  function RxSetup(): (r: Ring)
    ensures Chained(r) && r.cursor == 0
    ensures forall k: Slot :: r.At(k).word0 == OWN && HardwareOwned(r.At(k))
    ensures forall k: Slot :: r.At(k).word1 & RDES1_RCH != 0 && r.At(k).word1 & 0x1FFF == BUFFER_SIZE
  {
    Ring(Descriptor(OWN, RX_CONTROL, 0, 1), Descriptor(OWN, RX_CONTROL, 1, 0), 0)
  }

  /** rxne / txe: move the cursor along the current descriptor's next link, then
      report whether the descriptor now under the cursor belongs to software. */
  function Poll(r: Ring): (res: (Ring, bool))
    ensures res.0.d0 == r.d0 && res.0.d1 == r.d1
    ensures res.0.cursor == r.Current().next
    ensures res.1 <==> !HardwareOwned(res.0.Current())
    ensures Chained(r) ==> Chained(res.0) && res.0.cursor == 1 - r.cursor
  {
    var r' := r.(cursor := r.Current().next);
    (r', r'.Current().word0 & OWN == 0)
  }

  /** The ring after n polls. */
  function PollN(r: Ring, n: nat): Ring
    decreases n
  {
    if n == 0 then r else PollN(Poll(r).0, n - 1)
  }

  /** Polls inspect the two slots in strict alternation, whatever they report,
      and never touch a descriptor. */
  lemma {:induction false} PollRoundRobin(r: Ring, n: nat)
    requires Chained(r)
    ensures PollN(r, n) == r.(cursor := (r.cursor + n) % 2)
    decreases n
  {
    if n > 0 {
      var r1 := Poll(r).0;
      PollRoundRobin(r1, n - 1);
      assert (r1.cursor + (n - 1)) % 2 == (r.cursor + n) % 2;
    }
  }

  /** A view of the first `len` bytes of packet buffer `slot`. */
  datatype Slice = Slice(slot: Slot, len: Usize)

  /** The handles given to the network stack: a read-only view of a receive
      buffer, a writable view of a transmit buffer. */
  datatype RxBuffer = RxBuffer(data: Slice)
  datatype TxBuffer = TxBuffer(data: Slice)

  /** Ok, or smoltcp's Error::Exhausted. */
  datatype Outcome<T> = Ok(value: T) | Exhausted

  /** receive_packet's length: `(rdes0 >> 16) & 0x3FFF`. */
  function FrameLength(rdes0: bv32): (n: Usize)
    ensures n < 0x4000
  {
    (rdes0 >> 16) & RDES0_FL_MASK
  }

  /** The length the DMA engine writes into bits 16-29 is the length read back,
      whatever the other status bits hold. */
  lemma FrameLengthRoundTrip(fl: bv32, status: bv32)
    requires fl < 0x4000
    requires status & 0x3FFF_0000 == 0
    ensures FrameLength((fl << 16) | status) == fl
  {
  }

  /** EthernetDevice::receive: rxne, then on a software-owned descriptor a view of
      its buffer with receive_packet's length; otherwise Exhausted. */
  function Receive(r: Ring): (res: (Ring, Outcome<RxBuffer>))
    ensures res.0 == Poll(r).0
    ensures res.1.Exhausted? <==> HardwareOwned(res.0.Current())
    ensures res.1.Ok? ==>
      res.1.value.data == Slice(res.0.Current().buffer, FrameLength(res.0.Current().word0))
    ensures res.1.Ok? ==> res.1.value.data.len < 0x4000
  {
    var p := Poll(r);
    var d := p.0.Current();
    (p.0, if p.1 then Ok(RxBuffer(Slice(d.buffer, FrameLength(d.word0)))) else Exhausted)
  }

  /** EthernetDevice::transmit: txe, then on a software-owned descriptor a
      writable view of `length` bytes of its buffer; otherwise Exhausted. */
  function Reserve(r: Ring, length: Usize): (res: (Ring, Outcome<TxBuffer>))
    ensures res.0 == Poll(r).0
    ensures res.1.Exhausted? <==> HardwareOwned(res.0.Current())
    ensures res.1.Ok? ==> res.1.value.data == Slice(res.0.Current().buffer, length)
  {
    var p := Poll(r);
    (p.0, if p.1 then Ok(TxBuffer(Slice(p.0.Current().buffer, length))) else Exhausted)
  }

  /** release_packet's descriptor write: word 0 of the descriptor of the released
      buffer becomes exactly OWN. Buffer 0 is recognised by identity; any other
      buffer is taken to be buffer 1. */
  function Release(r: Ring, buf: Slice): (r': Ring)
    ensures r' == r.Put(buf.slot, r.At(buf.slot).(word0 := OWN))
    ensures Chained(r) ==> Chained(r')
  {
    if buf.slot == 0 then r.(d0 := r.d0.(word0 := OWN)) else r.(d1 := r.d1.(word0 := OWN))
  }

  /** transmit_packet's descriptor writes: word 1 of the descriptor of the given
      buffer becomes the slice's length and word 0 becomes TX_READY. */
  function Commit(r: Ring, packet: Slice): (r': Ring)
    ensures r' == r.Put(packet.slot, r.At(packet.slot).(word0 := TX_READY, word1 := packet.len))
    ensures Chained(r) ==> Chained(r')
  {
    if packet.slot == 0 then r.(d0 := r.d0.(word1 := packet.len, word0 := TX_READY))
    else r.(d1 := r.d1.(word1 := packet.len, word0 := TX_READY))
  }

  /** The DMA engine finishing with a descriptor it owns: it writes word 0 with
      OWN clear. This is the hardware side of the handshake, not firmware. */
  function WriteBack(r: Ring, k: Slot, status: bv32): (r': Ring)
    requires HardwareOwned(r.At(k)) && status & OWN == 0
    ensures r' == r.Put(k, r.At(k).(word0 := status))
    ensures !HardwareOwned(r'.At(k))
    ensures forall j: Slot :: !HardwareOwned(r.At(j)) ==> r'.At(j) == r.At(j)
    ensures Chained(r) ==> Chained(r')
  {
    r.Put(k, r.At(k).(word0 := status))
  }

  /** Receiving and then dropping the handle: the handle names the slot the
      cursor moved to, the release gives exactly that descriptor back with all
      status bits cleared, the other descriptor is untouched, and unless the
      hardware writes it back, the next visit to that slot reports Exhausted. */
  lemma ReceiveThenRelease(r: Ring)
    requires Chained(r)
    requires Receive(r).1.Ok?
    ensures var s := 1 - r.cursor;
      var r1 := Receive(r).0;
      var r2 := Release(r1, Receive(r).1.value.data);
      && Receive(r).1.value.data.slot == s
      && r2.At(s) == r.At(s).(word0 := OWN)
      && r2.At(1 - s) == r.At(1 - s)
      && r2.cursor == s
      && Chained(r2)
      && Receive(Receive(r2).0).1 == Exhausted
      && Receive(Receive(r2).0).0.cursor == s
  {
  }

  /** Reserving a transmit buffer and then dropping the handle: the handle names
      the slot the cursor moved to and has the reserved length; the commit writes
      that length into word 1 and TX_READY into word 0 of exactly that
      descriptor, and leaves the other descriptor untouched. The committed
      length is the reserved one, since the handle carries it. */
  lemma ReserveThenCommit(r: Ring, length: Usize)
    requires Chained(r)
    requires Reserve(r, length).1.Ok?
    ensures var s := 1 - r.cursor;
      var h := Reserve(r, length).1.value;
      var r2 := Commit(Reserve(r, length).0, h.data);
      && h.data == Slice(s, length)
      && r2.At(s) == r.At(s).(word0 := TX_READY, word1 := length)
      && r2.At(1 - s) == r.At(1 - s)
      && HardwareOwned(r2.At(s))
      && Chained(r2)
  {
  }

  /** The cursor advances even when a handle is still held: with both receive
      descriptors software-owned, a third receive without a release hands out
      the first slot again. */
  lemma ThirdReceiveRevisits(r: Ring)
    requires Chained(r)
    requires !HardwareOwned(r.d0) && !HardwareOwned(r.d1)
    ensures var a := Receive(r);
      var b := Receive(a.0);
      var c := Receive(b.0);
      && a.1.Ok? && b.1.Ok? && c.1.Ok?
      && a.1.value.data.slot != b.1.value.data.slot
      && c.1 == a.1
  {
  }

  /** Right after mac_init the first receive inspects RD1, not RD0 where the
      receive DMA starts its list. */
  lemma FirstReceiveAfterSetup()
    ensures Receive(RxSetup()).0.cursor == 1
    ensures Receive(RxSetup()).1 == Exhausted
  {
  }

  /** With the cursor on RD1 and RD0 written back with frame length 64, a receive
      yields a 64-byte view of buffer 0. */
  lemma ReceiveFromSlotZero(r: Ring)
    requires Chained(r) && r.cursor == 1
    requires r.d0.word0 == 64 << 16
    ensures Receive(r).1 == Ok(RxBuffer(Slice(0, 64)))
  {
  }

  /** Reserving 12 bytes after mac_init and dropping the handle arms TD1 with
      length 12, OWN, first and last segment and full checksum insertion. */
  lemma TransmitTwelveAfterSetup()
    ensures Reserve(TxSetup(), 12).1 == Ok(TxBuffer(Slice(1, 12)))
    ensures var d := Commit(Reserve(TxSetup(), 12).0, Slice(1, 12)).At(1);
      && d.word1 == 12
      && d.word0 & OWN != 0 && d.word0 & TDES0_FS != 0 && d.word0 & TDES0_LS != 0
      && d.word0 & TDES0_CIC_FULL == TDES0_CIC_FULL
  {
  }

  /** The full receive handshake on one slot: after a receive and the release
      of its handle, the DMA engine writes a frame of length fl back into that
      descriptor; the next visit to the slot hands out exactly fl bytes of the
      same buffer. */
  lemma ReleaseThenWriteBack(r: Ring, fl: bv32, status: bv32)
    requires Chained(r)
    requires Receive(r).1.Ok?
    requires fl < 0x4000
    requires status & 0xBFFF_0000 == 0
    ensures var s := 1 - r.cursor;
      var r2 := Release(Receive(r).0, Receive(r).1.value.data);
      var r3 := WriteBack(r2, s, (fl << 16) | status);
      && Chained(r3)
      && Receive(Receive(r3).0).0.cursor == s
      && Receive(Receive(r3).0).1 == Ok(RxBuffer(Slice(s, fl)))
  {
    ReceiveThenRelease(r);
    FrameLengthRoundTrip(fl, status);
  }

  /** The transmit handshake on one slot: once the DMA engine has sent the
      committed frame and written the descriptor back with OWN clear, the next
      visit to the slot offers the same buffer again. */
  lemma ReserveCommitWriteBack(r: Ring, length: Usize, next: Usize, status: bv32)
    requires Chained(r)
    requires Reserve(r, length).1.Ok?
    requires status & OWN == 0
    ensures var s := 1 - r.cursor;
      var r2 := Commit(Reserve(r, length).0, Reserve(r, length).1.value.data);
      var r3 := WriteBack(r2, s, status);
      && Chained(r3)
      && Reserve(Reserve(r3, next).0, next).1 == Ok(TxBuffer(Slice(s, next)))
  {
    ReserveThenCommit(r, length);
  }
}
