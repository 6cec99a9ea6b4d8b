/** Word packing done by the firmware: the millisecond clock read from the
    32-bit TIM5 counter, and the MAC address programmed into MACA0LR/MACA0HR. */
module Words {

  /** timer_time's combine: a high and a low half-word packed into one u32. */
  function TimerTime(low: bv16, high: bv16): (t: bv32)
    ensures t == (high as bv32) * 0x1_0000 + (low as bv32)
    ensures t & 0xFFFF == low as bv32 && t >> 16 == high as bv32
  {
    ((high as bv32) << 16) | (low as bv32)
  }

  /** The half-words of a packed value pack back to it. */
  lemma TimerTimeHalves(t: bv32)
    ensures TimerTime((t & 0xFFFF) as bv16, (t >> 16) as bv16) == t
  {
  }

  /** timer_time as written: the low half is taken from one read of TIM5's
      counter and the high half from a second read made after it. */
  function TimerTimeAsWritten(first: bv32, second: bv32): (t: bv32)
    ensures t & 0xFFFF == first & 0xFFFF && t >> 16 == second >> 16
  {
    TimerTime((first & 0xFFFF) as bv16, (second >> 16) as bv16)
  }

  /** When the counter carries out of its low half between the two reads
      (0x0000_FFFF, then 0x0001_0000), the time returned is 0x0001_FFFF: later
      than both readings, by almost 65536 ticks. */
  lemma TimerTimeTorn()
    ensures TimerTimeAsWritten(0x0000_FFFF, 0x0001_0000) == 0x0001_FFFF
    ensures TimerTimeAsWritten(0x0000_FFFF, 0x0001_0000) - 0x0001_0000 == 0xFFFF
  {
  }

  /** timer_time with both halves taken from a single read of the counter. */
  function TimerTimeSnapshot(cnt: bv32): (t: bv32)
    ensures t == cnt
  {
    TimerTime((cnt & 0xFFFF) as bv16, (cnt >> 16) as bv16)
  }

  /** Reading once, the time returned always lies between any reading made
      before the call and any made after it. */
  lemma TimerTimeSnapshotInRange(before: bv32, cnt: bv32, after: bv32)
    requires before <= cnt <= after
    ensures before <= TimerTimeSnapshot(cnt) <= after
  {
  }

  /** The station address, as mac_init's comment and main's EthernetAddress give it. */
  const STATION_ADDRESS: seq<bv8> := [0x56, 0x54, 0x9f, 0x08, 0x87, 0x1d]

  /** MACA0LR: address bytes 0 to 3, byte 0 in the least significant position. */
  function AddressLow(a: seq<bv8>): (w: bv32)
    requires |a| == 6
    ensures w & 0xFF == a[0] as bv32 && (w >> 8) & 0xFF == a[1] as bv32
    ensures (w >> 16) & 0xFF == a[2] as bv32 && w >> 24 == a[3] as bv32
  {
    ((a[3] as bv32) << 24) | ((a[2] as bv32) << 16) | ((a[1] as bv32) << 8) | (a[0] as bv32)
  }

  /** MACA0HR bits 0-15: address bytes 4 and 5, byte 4 in the low position. */
  function AddressHigh(a: seq<bv8>): (w: bv32)
    requires |a| == 6
    ensures w < 0x1_0000
    ensures w & 0xFF == a[4] as bv32 && w >> 8 == a[5] as bv32
  {
    ((a[5] as bv32) << 8) | (a[4] as bv32)
  }

  /** Byte i of the address as the MAC reads it from the two register words. */
  function AddressByte(low: bv32, high: bv32, i: nat): bv8
    requires i < 6
  {
    if i == 0 then (low & 0xFF) as bv8
    else if i == 1 then ((low >> 8) & 0xFF) as bv8
    else if i == 2 then ((low >> 16) & 0xFF) as bv8
    else if i == 3 then (low >> 24) as bv8
    else if i == 4 then (high & 0xFF) as bv8
    else ((high >> 8) & 0xFF) as bv8
  }

  /** Packing an address into the two words loses nothing. */
  lemma AddressRoundTrip(a: seq<bv8>)
    requires |a| == 6
    ensures forall i :: 0 <= i < 6 ==> AddressByte(AddressLow(a), AddressHigh(a), i) == a[i]
  {
  }

  /** The constants mac_init writes are the packing of the station address. */
  lemma StationAddressWords()
    ensures AddressLow(STATION_ADDRESS) == 0x089f_5456
    ensures AddressHigh(STATION_ADDRESS) == 0x1d87
  {
  }
}
