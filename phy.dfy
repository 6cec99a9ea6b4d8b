/** PHY management over the MAC's SMI (MDIO) port: the reset busy-wait, the
    autonegotiation enable, and the link decode that forces the MAC to
    100 Mbit/s full duplex. The PHY registers are those of IEEE 802.3 clause 22
    (section 22.2.4: control register 0, status register 1) and the link
    partner ability register 5 of clause 28 (section 28.2.4.1.4). SMI reads are
    the values the PHY answers, given as parameters. */
module Phy {

  /** PHY register addresses. */
  const BCR: bv8 := 0x00
  const BSR: bv8 := 0x01
  const ANLPAR: bv8 := 0x05

  /** Control register bits. */
  const BCR_RESET: bv16 := 1 << 15
  const BCR_AUTONEG_ENABLE: bv16 := 1 << 12

  /** Status register bits. */
  const BSR_LINK_STATUS: bv16 := 1 << 2
  const BSR_REMOTE_FAULT: bv16 := 1 << 4
  const BSR_AUTONEG_COMPLETE: bv16 := 1 << 5

  /** Link partner ability: 100BASE-TX full duplex. */
  const ANLPAR_100BASE_TX_FD: bv16 := 1 << 8

  /** MACCR bits of the STM32F7 Ethernet MAC: duplex mode and fast Ethernet speed. */
  const MACCR_DM: bv32 := 1 << 11
  const MACCR_FES: bv32 := 1 << 14

  /** phy_poll_link's decision: five checks, each a return of false. */
  function LinkUp(bsr: bv16, bcr: bv16, lpa: bv16): (up: bool)
    ensures up <==>
      && bcr & BCR_AUTONEG_ENABLE != 0
      && bsr & BSR_LINK_STATUS != 0
      && bsr & BSR_REMOTE_FAULT == 0
      && bsr & BSR_AUTONEG_COMPLETE != 0
      && lpa & ANLPAR_100BASE_TX_FD != 0
  {
    if bcr & (1 << 12) == 0 then false
    else if bsr & (1 << 2) == 0 then false
    else if bsr & (1 << 4) != 0 then false
    else if bsr & (1 << 5) == 0 then false
    else if lpa & (1 << 8) == 0 then false
    else true
  }

  /** From a link-up reading, turning any one of the five conditions around
      gives link down, whatever the other four and the remaining bits are. */
  lemma EachConditionIsNeeded(bsr: bv16, bcr: bv16, lpa: bv16)
    requires LinkUp(bsr, bcr, lpa)
    ensures !LinkUp(bsr, bcr ^ BCR_AUTONEG_ENABLE, lpa)
    ensures !LinkUp(bsr ^ BSR_LINK_STATUS, bcr, lpa)
    ensures !LinkUp(bsr ^ BSR_REMOTE_FAULT, bcr, lpa)
    ensures !LinkUp(bsr ^ BSR_AUTONEG_COMPLETE, bcr, lpa)
    ensures !LinkUp(bsr, bcr, lpa ^ ANLPAR_100BASE_TX_FD)
  {
  }

  /** Status 0x0024 (link up, autonegotiation complete), control 0x1000
      (autonegotiation enabled) and partner 0x0100 (100BASE-TX full duplex) is
      link up; the same with a remote fault is not. */
  lemma LinkUpReading()
    ensures LinkUp(0x0024, 0x1000, 0x0100)
    ensures !LinkUp(0x0034, 0x1000, 0x0100)
  {
  }

  /** The MACCR modify of phy_poll_link: FES and DM set, every other bit kept. */
  function ForceFullDuplex100(maccr: bv32): (m: bv32)
    ensures m & MACCR_FES != 0 && m & MACCR_DM != 0
    ensures m & !(MACCR_FES | MACCR_DM) == maccr & !(MACCR_FES | MACCR_DM)
  {
    maccr | MACCR_FES | MACCR_DM
  }

  /** One smi_write: a PHY register and the value written to it. */
  datatype SmiWrite = SmiWrite(reg: bv8, value: bv16)

  /** How phy_reset's busy-wait ends on the PHY's successive answers to reads of
      register 0: Cleared after `polls` reads, the last of which had bit 15
      clear, or still Spinning when the answers run out. */
  datatype ResetWait = Cleared(polls: nat) | Spinning

  predicate ResetWaitEnds(replies: seq<bv16>, w: ResetWait)
  {
    match w
    case Cleared(n) =>
      0 < n <= |replies| && replies[n - 1] & BCR_RESET == 0 &&
      forall j :: 0 <= j < n - 1 ==> replies[j] & BCR_RESET != 0
    case Spinning =>
      forall j :: 0 <= j < |replies| ==> replies[j] & BCR_RESET != 0
  }

  /** The MAC register block as far as the link manager uses it. */
  class Mac {
    var maccr: bv32
    /** The smi_write calls made, oldest first. */
    var smiLog: seq<SmiWrite>

    constructor (maccr: bv32)
      ensures this.maccr == maccr && smiLog == []
    {
      this.maccr := maccr;
      smiLog := [];
    }

    /** smi_write: one register write to the PHY. The MACMIIAR encoding and the
        busy bit wait are not part of this model. */
    method SmiWriteRegister(reg: bv8, value: bv16)
      modifies this`smiLog
      ensures smiLog == old(smiLog) + [SmiWrite(reg, value)]
    {
      smiLog := smiLog + [SmiWrite(reg, value)];
    }
  }

  /** The busy-wait of phy_reset: read register 0 again while bit 15 is set. */
  method AwaitResetClear(replies: seq<bv16>) returns (w: ResetWait)
    ensures ResetWaitEnds(replies, w)
  {
    var i := 0;
    while i < |replies| && replies[i] & BCR_RESET == BCR_RESET
      invariant 0 <= i <= |replies|
      invariant forall j :: 0 <= j < i ==> replies[j] & BCR_RESET != 0
    {
      i := i + 1;
    }
    if i == |replies| {
      w := Spinning;
    } else {
      w := Cleared(i + 1);
    }
  }

  /** phy_reset: write the reset bit, then wait until the PHY reads it back clear. */
  method PhyReset(mac: Mac, replies: seq<bv16>) returns (w: ResetWait)
    modifies mac`smiLog
    ensures mac.smiLog == old(mac.smiLog) + [SmiWrite(BCR, BCR_RESET)]
    ensures ResetWaitEnds(replies, w)
  {
    mac.SmiWriteRegister(0x00, 1 << 15);
    w := AwaitResetClear(replies);
  }

  /** phy_init: write control register 0 with only autonegotiation enabled. */
  method PhyInit(mac: Mac)
    modifies mac`smiLog
    ensures mac.smiLog == old(mac.smiLog) + [SmiWrite(BCR, BCR_AUTONEG_ENABLE)]
  {
    mac.SmiWriteRegister(0x00, 1 << 12);
  }

  /** phy_poll_link on the answers to its reads of registers 1, 0 and 5: on link
      up the MAC is forced to 100 Mbit/s full duplex, otherwise it is untouched. */
  method PhyPollLink(mac: Mac, bsr: bv16, bcr: bv16, lpa: bv16) returns (up: bool)
    modifies mac`maccr
    ensures up == LinkUp(bsr, bcr, lpa)
    ensures mac.maccr == if up then ForceFullDuplex100(old(mac.maccr)) else old(mac.maccr)
  {
    if bcr & (1 << 12) == 0 { return false; }
    if bsr & (1 << 2) == 0 { return false; }
    if bsr & (1 << 4) != 0 { return false; }
    if bsr & (1 << 5) == 0 { return false; }
    if lpa & (1 << 8) == 0 { return false; }
    mac.maccr := mac.maccr | MACCR_FES | MACCR_DM;
    return true;
  }
}
