# Ethernet descriptor-ring driver and PHY link decode of the NUCLEO-F7 firmware

This project models the Ethernet driver of the bare-metal firmware for the
NUCLEO-F7 board (STM32F7, Rust, `no_std`): the two-slot transmit and receive
DMA descriptor rings in chained-descriptor mode, the ownership handshake by
which buffers pass between the driver and the DMA engine, the smoltcp device
adapter built on them, the PHY reset/initialisation/link decode over SMI, and
two word-packing helpers (the millisecond clock and the MAC address
registers).

- `descriptors.dfy`, module `Descriptors`: the descriptor records (word 0
  ownership/control/status, word 1 length or control, word 2 buffer, word 3
  next) as values, with raw buffer and descriptor addresses replaced by slot
  indices 0/1; a ring is two descriptors plus a cursor. It holds the
  specification functions (`Poll`, `Receive`, `Reserve`, `Release`,
  `Commit`, the ring setup) and the lemmas about them.
- `driver.dfy`, module `Driver`: class `EthernetDma` holding the statics
  TD0/TD1/RD0/RD1 and the cursors TDPTR/RDPTR as fields, plus the DMA status
  fields the driver reads (transmit and receive process state) and a log of
  the DMA register writes it makes (buffer-unavailable flag writes and poll
  demands). Its constructor is the descriptor setup of `mac_init`; each
  method is proved against the functions of `Descriptors` and keeps the ring
  invariant `Valid()`.
- `phy.dfy`, module `Phy`: the IEEE 802.3 clause 22 control and status
  registers and the clause 28 link partner ability register, the five-bit
  link decision, the MACCR speed/duplex modify, `phy_reset`'s busy-wait, and
  class `Mac` with the MACCR register and a log of SMI writes.
- `words.dfy`, module `Words`: `timer_time`'s half-word combine, and the
  packing of the station address `56:54:9f:08:87:1d` into MACA0LR/MACA0HR.

Inputs that come from the hardware are parameters: the PHY's answers to SMI
reads, the DMA process states reported once `mac_init` has started both DMA
processes, and the DMA engine's own actions, which appear as three methods of
`EthernetDma`. `DmaReceiveDone` and `DmaTransmitDone` write back word 0 of a
descriptor the hardware owns, as the function `Descriptors.WriteBack` states,
and their status word has OWN clear; `DmaProcessStates` changes the transmit
and receive process states and touches no descriptor.

Behaviour worth knowing, each stated by a lemma:

- The cursor advances before the ownership test on every call, whatever the
  result (`PollRoundRobin`). So after `mac_init`, with both cursors on slot
  0, the first receive inspects RD1, while the receive DMA starts its list at
  RD0 (`FirstReceiveAfterSetup`). The same holds for transmit: the first
  frame goes into TD1 (`TransmitTwelveAfterSetup`, `FirstTransmitAfterStart`),
  while the transmit DMA starts its list at TD0; the model records the
  restart writes, not what the DMA engine then fetches.
- A third receive without an intervening release is not Exhausted: the
  cursor alternates, so the first slot is handed out again
  (`ThirdReceiveRevisits`).
- The frame length read from receive word 0 is at most 16383 (14 bits); the
  code does not bound it by the 2048-byte buffer size.
- In the STM32F7 DMA status register the transmit process state (TPS, bits
  22:20) reads 0b110 when suspended, but the receive process state (RPS, bits
  19:17) reads 0b100 when suspended, and 0b110 is a reserved RPS value.
  `release_packet` compares RPS with 0b110, so its restart never fires
  (`RxRestartNeverFires`); the model keeps that comparison and records it
  under Findings.

## Model

| member | source | states |
|---|---|---|
| `Descriptors.CycleCloses` | firmware/nucleof7/src/main.rs:405-429 | on a chained ring each descriptor's next is the other one, following next twice returns to the start, and descriptor k names buffer k |
| `Descriptors.TxSetup` | firmware/nucleof7/src/main.rs:407-417 | the transmit ring after setup is chained, its cursor is on TD0, both descriptors are software-owned with TCH set and length 2048 |
| `Descriptors.RxSetup` | firmware/nucleof7/src/main.rs:419-429 | the receive ring after setup is chained, its cursor is on RD0, both word 0s are exactly OWN, and word 1 has RCH and a 2048-byte buffer size |
| `Descriptors.Poll` | firmware/nucleof7/src/main.rs:50-64 | the cursor moves to the current descriptor's next, no descriptor changes, the result is true iff OWN of the new current descriptor is clear; on a chained ring the cursor flips slot |
| `Descriptors.PollRoundRobin` | firmware/nucleof7/src/main.rs:50-64 | n polls of a chained ring leave the descriptors alone and put the cursor on (start + n) mod 2 |
| `Descriptors.FrameLength` | firmware/nucleof7/src/main.rs:98 | the receive frame length taken from word 0 is below 16384 |
| `Descriptors.FrameLengthRoundTrip` | firmware/nucleof7/src/main.rs:98 | a length written into bits 16-29 of word 0 is read back unchanged whatever the other status bits are |
| `Descriptors.Receive` | firmware/nucleof7/src/main.rs:150-156 | receive polls the ring; it is Exhausted iff the new current descriptor is hardware-owned, otherwise a view of that descriptor's buffer with its frame length (below 16384) |
| `Descriptors.Reserve` | firmware/nucleof7/src/main.rs:158-164 | transmit polls the ring; it is Exhausted iff the new current descriptor is hardware-owned, otherwise a view of that descriptor's buffer with the requested length |
| `Descriptors.Release` | firmware/nucleof7/src/main.rs:103-109 | releasing a buffer sets word 0 of its descriptor to exactly OWN and changes nothing else; buffer 0 by identity, anything else descriptor 1; chaining is kept |
| `Descriptors.Commit` | firmware/nucleof7/src/main.rs:66-76 | committing a packet writes its length into word 1 and OWN, IC, LS, FS, CIC=3, TCH into word 0 of its buffer's descriptor and changes nothing else; chaining is kept |
| `Descriptors.ReceiveThenRelease` | firmware/nucleof7/src/main.rs:136-156 | a received handle names the slot the cursor moved to; dropping it gives exactly that descriptor back with all status cleared, leaves the other alone, and the next visit to that slot is Exhausted |
| `Descriptors.ReserveThenCommit` | firmware/nucleof7/src/main.rs:130-134 | a reserved handle names the slot the cursor moved to and carries the reserved length; dropping it arms exactly that descriptor with that length and leaves the other alone |
| `Descriptors.ReleaseThenWriteBack` | firmware/nucleof7/src/main.rs:96-109 | after a receive, the release of its handle and the DMA's write-back of frame length fl into that descriptor, the next visit to that slot yields exactly fl bytes of the same buffer |
| `Descriptors.ReserveCommitWriteBack` | firmware/nucleof7/src/main.rs:66-94 | after a reserve, the commit of its handle and the DMA's write-back of that descriptor with OWN clear, the next visit to that slot offers the same buffer again |
| `Descriptors.ThirdReceiveRevisits` | firmware/nucleof7/src/main.rs:50-56 | with both receive descriptors software-owned, three receives without release return two different slots and then the first handle again |
| `Descriptors.FirstReceiveAfterSetup` | firmware/nucleof7/src/main.rs:417-429 | the first receive after setup inspects RD1 and finds it hardware-owned |
| `Descriptors.ReceiveFromSlotZero` | firmware/nucleof7/src/main.rs:96-101 | with the cursor on RD1 and RD0 holding frame length 64, a receive yields a 64-byte view of buffer 0 |
| `Descriptors.TransmitTwelveAfterSetup` | firmware/nucleof7/src/main.rs:66-76 | reserving 12 bytes after setup yields buffer 1, and dropping it leaves length 12, OWN, FS, LS and full checksum insertion in TD1 |
| `Driver.TxRestart` | firmware/nucleof7/src/main.rs:79-86 | when TPS reads 0b110 (suspended) the restart is exactly the TBUS write followed by a poll demand of 0xFFFF_FFFF on DMATPDR; in every other state it writes nothing |
| `Driver.RxRestart` | firmware/nucleof7/src/main.rs:112-119 | when RPS reads 0b110 (a reserved RPS value, not suspended) the restart is exactly the RBUS write followed by a poll demand of 0xFFFF_FFFF on DMARPDR; in every other state it writes nothing |
| `Driver.RxRestartNeverFires` | firmware/nucleof7/src/main.rs:115 | the as-written receive restart writes something only on a reserved RPS value, and nothing when RPS reads 0b100 (suspended) |
| `Driver.RxRestartOnSuspend` | firmware/nucleof7/src/main.rs:112-119 | the corrected receive restart is the RBUS write and the poll demand exactly when RPS reads 0b100, never on a reserved value |
| `Driver.EthernetDma.MacInit` | firmware/nucleof7/src/main.rs:405-457 | the rings are exactly `TxSetup` and `RxSetup`, both DMA lists start at slot 0, the process states are those the started DMA reports, and no restart writes have been made |
| `Driver.FirstTransmitAfterStart` | firmware/nucleof7/src/main.rs:405-457 | after bring-up with the transmit DMA suspended, the first frame goes to buffer 1 and its commit makes exactly the TBUS write and one transmit poll demand |
| `Driver.EthernetDma.Rxne` | firmware/nucleof7/src/main.rs:50-56 | RDPTR and the result are those of `Poll` on the old receive ring; nothing else changes |
| `Driver.EthernetDma.Txe` | firmware/nucleof7/src/main.rs:58-64 | TDPTR and the result are those of `Poll` on the old transmit ring; nothing else changes |
| `Driver.EthernetDma.ReceivePacket` | firmware/nucleof7/src/main.rs:96-101 | the view is of the current receive descriptor's buffer with the length from its word 0, below 16384 |
| `Driver.EthernetDma.GetTxBuffer` | firmware/nucleof7/src/main.rs:90-94 | the view is of the current transmit descriptor's buffer with the requested length |
| `Driver.EthernetDma.TransmitPacket` | firmware/nucleof7/src/main.rs:66-88 | the transmit ring becomes `Commit` of the old one and the DMA write log grows by exactly `TxRestart` of the process state |
| `Driver.EthernetDma.ReleasePacket` | firmware/nucleof7/src/main.rs:103-121 | the receive ring becomes `Release` of the old one and the DMA write log grows by exactly `RxRestart` of the process state |
| `Driver.EthernetDma.Receive` | firmware/nucleof7/src/main.rs:150-156 | the new receive ring and the result are those of `Descriptors.Receive` on the old one |
| `Driver.EthernetDma.Transmit` | firmware/nucleof7/src/main.rs:158-164 | the new transmit ring and the result are those of `Reserve` on the old one |
| `Driver.EthernetDma.RxBufferDrop` | firmware/nucleof7/src/main.rs:136-140 | dropping a receive handle releases its buffer and makes exactly the writes of `RxRestart` (restart when RPS reads 0b110) |
| `Driver.EthernetDma.TxBufferDrop` | firmware/nucleof7/src/main.rs:130-134 | dropping a transmit handle commits its buffer with the handle's length and makes exactly the writes of `TxRestart` (restart when TPS reads 0b110, suspended) |
| `Driver.ReceiveAndRelease` | firmware/nucleof7/src/main.rs:136-156 | a receive whose handle is dropped at once gives the descriptor back and makes exactly the writes of `RxRestart`; an Exhausted receive only moves RDPTR as `Descriptors.Receive` does and writes no DMA register |
| `Phy.LinkUp` | firmware/nucleof7/src/main.rs:510-524 | link is up iff autonegotiation is enabled, link status is set, remote fault is clear, autonegotiation is complete and the partner can do 100BASE-TX full duplex |
| `Phy.EachConditionIsNeeded` | firmware/nucleof7/src/main.rs:515-524 | from a link-up reading, flipping any one of the five condition bits gives link down |
| `Phy.LinkUpReading` | firmware/nucleof7/src/main.rs:510-524 | status 0x0024, control 0x1000 and partner 0x0100 is link up; with a remote fault it is not |
| `Phy.ForceFullDuplex100` | firmware/nucleof7/src/main.rs:527-530 | the forced MACCR has FES and DM set and every other bit as before |
| `Phy.Mac.SmiWriteRegister` | firmware/nucleof7/src/main.rs:485-499 | an SMI write records exactly that register and value |
| `Phy.AwaitResetClear` | firmware/nucleof7/src/main.rs:503 | the wait ends at the first answer with bit 15 clear, after every earlier answer had it set, or is still spinning when every answer has it set |
| `Phy.PhyReset` | firmware/nucleof7/src/main.rs:501-504 | reset writes 0x8000 to register 0 and then waits as `AwaitResetClear` states |
| `Phy.PhyInit` | firmware/nucleof7/src/main.rs:506-508 | init writes exactly 0x1000 (autonegotiation enable) to register 0 |
| `Phy.PhyPollLink` | firmware/nucleof7/src/main.rs:510-533 | the result is `LinkUp` of the three readings; on link up MACCR becomes `ForceFullDuplex100` of its old value, otherwise it is unchanged |
| `Words.TimerTime` | firmware/nucleof7/src/main.rs:374-376 | the packed time is high * 65536 + low without wrap-around, and its halves are low and high |
| `Words.TimerTimeHalves` | firmware/nucleof7/src/main.rs:374-376 | splitting a 32-bit count into halves and packing them gives the count back |
| `Words.TimerTimeAsWritten` | firmware/nucleof7/src/main.rs:371-378 | the time returned has its low half from the first counter read and its high half from the second |
| `Words.TimerTimeTorn` | firmware/nucleof7/src/main.rs:374-376 | reads 0x0000_FFFF then 0x0001_0000 give 0x0001_FFFF, 65535 ticks after the later reading |
| `Words.TimerTimeSnapshot` | firmware/nucleof7/src/main.rs:371-378 | taking both halves from one read returns that reading |
| `Words.TimerTimeSnapshotInRange` | firmware/nucleof7/src/main.rs:371-378 | a one-read time lies between any reading before the call and any after it |
| `Words.AddressLow` | firmware/nucleof7/src/main.rs:394 | the MACA0LR word holds address bytes 0, 1, 2, 3 in bits 0-7, 8-15, 16-23, 24-31 |
| `Words.AddressHigh` | firmware/nucleof7/src/main.rs:395 | the MACA0HR word uses only its low 16 bits, byte 4 in bits 0-7 and byte 5 in bits 8-15 |
| `Words.AddressRoundTrip` | firmware/nucleof7/src/main.rs:393-395 | each of the six address bytes is recovered from the two register words |
| `Words.StationAddressWords` | firmware/nucleof7/src/main.rs:394-395 | 0x089f5456 and 0x1d87 are the little-endian packing of the bytes 56:54:9f:08:87:1d given at line 561 |

## Left out

- `rcc_init`, `rcc_reset`, `rcc_start`, `gpio_init`, `usart_init`, `usart_send`, `usart_send_string`, `timer_init` and the cache control in `main`: plain register writes through the `stm32f7` peripheral-access crate, whose field layouts are not part of this model, with no decisions in them.
- The other register writes of `mac_init` (RMII select, DMA software reset and its wait, frame filter, MACCR RE/TE, interrupt enables, bus mode, FIFO flush, operation mode): crate field writes with no decisions; only the descriptor setup, the list base writes and the address words are modelled.
- `smi_read` and the MACMIIAR/MACMIIDR encoding and busy-bit waits of `smi_read`/`smi_write`: the bit positions come from the crate; SMI reads are the PHY's answers given as parameters, and SMI writes are recorded as register/value pairs.
- `PhyReset`: the firmware spins forever when the PHY never clears bit 15; the model waits over a finite sequence of answers and reports `Spinning` when they run out, since a non-terminating loop cannot be written here.
- `AwaitResetClear`: same reason as `PhyReset`; a wait that never ends is reported as `Spinning`.
- The wait `while !phy_poll_link() {}` in `main`, the smoltcp interface, ARP cache, TCP socket and the main loop: a foreign library and demonstration behaviour.
- The bytes in the packet buffers: the driver never reads or writes them; a handle is modelled as its buffer slot and its length.
- The exclusive use of handles that Rust's ownership gives (a handle is dropped exactly once, and not used after): Dafny has no linear types, so the model does not prevent a handle from being released twice.
- Memory barriers (`asm::dmb`) and `cortex_m::interrupt::free` critical sections: ordering and concurrency primitives, treated as no-ops in this sequential model.
- Raw pointers, address comparisons and slice construction: replaced by slot indices.
- The DMA engine's own traversal of the rings and the transfer of frames: only its write-back of an owned descriptor's word 0 and its process-state changes are modelled.
- The `usize` to `u32` cast of the transmit length: `usize` is 32 bits on this target, so lengths are 32-bit words throughout.
- `EthernetDevice::mtu`: the constant `Driver.MTU` (1536).
- The interrupt vector table and `default_handler`.

## Findings

| source | as written | input that shows it | evidently intended | confidence | as-written member | corrected member |
|---|---|---|---|---|---|---|
| firmware/nucleof7/src/main.rs:374-376 | `timer_time` reads TIM5's 32-bit counter twice, taking the low half from the first read and the high half from the second | the counter reads 0x0000_FFFF and then 0x0001_0000 (a carry out of the low half between the reads): the time returned is 0x0001_FFFF, almost 65536 ticks ahead | both halves from a single read, so the time is a value the counter really held | medium, not executed | `Words.TimerTimeTorn` | `Words.TimerTimeSnapshot` |
| firmware/nucleof7/src/main.rs:115 | `release_packet` restarts the receive DMA when DMASR.RPS reads 0b110, the TPS encoding of suspended | the stack holds both receive buffers, so the receive DMA finds the next descriptor software-owned and suspends with RPS = 0b100 (suspended, STM32F7 DMASR bits 19:17); releasing a buffer then writes no RBUS and no poll demand, so the receive DMA resumes only when its next frame arrives | restart when RPS reads 0b100 (suspended) | medium, not executed | `Driver.RxRestartNeverFires` | `Driver.RxRestartOnSuspend` |
