/**
  Register configuration of the Atheros AR8021/AR8031/AR8033/AR8035 PHYs:
  indirect debug-register access, RGMII delay straps, the PLL/IO-voltage and
  CLK_25M settings, and the two configuration entry points. Every bus access
  goes through a PhyDevice, which keeps the register file, the log of issued
  transactions and the fault oracle that decides which transactions fail.
*/
module Ar803x {
  import opened Outcomes
  import opened RegisterFile
  import opened Ar803xOptions

  /** Debug register 0 and its RGMII receive clock delay bit. */
  const DEBUG_REG_0: bv16 := 0x0
  const RGMII_RX_CLK_DLY: bv16 := 0x8000  // 1 << 15

  /** Debug register 5 and its RGMII transmit clock delay bit. */
  const DEBUG_REG_5: bv16 := 0x5
  const RGMII_TX_CLK_DLY: bv16 := 0x100  // 1 << 8

  /** Debug register 0x1f: keep the PLL on, and 1.8 V RGMII I/O. */
  const DEBUG_REG_1F: bv16 := 0x1f
  const PLL_ON: bv16 := 0x4  // 1 << 2
  const RGMII_1V8: bv16 := 0x8  // 1 << 3

  /** The CLK_25M register of MMD device 7. */
  const MMD7_CLK25M: MmdReg := 0x8016

  /** The basic mode control register, and the value the AR8021 entry point writes to it. */
  const MII_BMCR: C22Reg := 0x00
  const AR8021_BMCR: bv16 := 0x1200

  /** The value the AR8021 entry point writes to debug register 5. */
  const AR8021_DEBUG_5: bv16 := 0x3d47

  /** The MAC interface mode the PHY is attached with; modes other than the RGMII ones are lumped together. */
  datatype PhyInterface = Mii | Gmii | Sgmii | Rmii | Rgmii | RgmiiId | RgmiiRxid | RgmiiTxid | OtherMode

  /** The mode asks the PHY to delay the transmit clock. */
  predicate WantsTxDelay(mode: PhyInterface) {
    mode == RgmiiTxid || mode == RgmiiId
  }

  /** The mode asks the PHY to delay the receive clock. */
  predicate WantsRxDelay(mode: PhyInterface) {
    mode == RgmiiRxid || mode == RgmiiId
  }

  /** Read-modify-write of one register value: clear the bits of `clear`, then set those of `setBits`. */
  function MaskedValue(v: bv16, clear: bv16, setBits: bv16): (r: bv16)
    ensures r & setBits == setBits
    ensures r & (clear & !setBits) == 0
    ensures (r ^ v) & !(clear | setBits) == 0
  {
    (v & !clear) | setBits
  }

  /** A masked update is idempotent: repeating it (as a second configuration run does) changes nothing. */
  lemma MaskIdempotent(v: bv16, clear: bv16, setBits: bv16)
    ensures MaskedValue(MaskedValue(v, clear, setBits), clear, setBits) == MaskedValue(v, clear, setBits)
  {
  }

  /** Debug register 5 after the transmit delay strap for `mode`. */
  function TxDelayed(mode: PhyInterface, v: bv16): (r: bv16)
    ensures (r & RGMII_TX_CLK_DLY != 0) == WantsTxDelay(mode)
    ensures (r ^ v) & !RGMII_TX_CLK_DLY == 0
  {
    if WantsTxDelay(mode) then MaskedValue(v, 0, RGMII_TX_CLK_DLY) else MaskedValue(v, RGMII_TX_CLK_DLY, 0)
  }

  /** Debug register 0 after the receive delay strap for `mode`. */
  function RxDelayed(mode: PhyInterface, v: bv16): (r: bv16)
    ensures (r & RGMII_RX_CLK_DLY != 0) == WantsRxDelay(mode)
    ensures (r ^ v) & !RGMII_RX_CLK_DLY == 0
  {
    if WantsRxDelay(mode) then MaskedValue(v, 0, RGMII_RX_CLK_DLY) else MaskedValue(v, RGMII_RX_CLK_DLY, 0)
  }

  /** The bits to clear and to set in one masked update. */
  datatype BitUpdate = BitUpdate(clear: bv16, setBits: bv16)

  /** The PLL and I/O voltage bits of debug register 0x1f that the flags ask to set and to clear. */
  function PllVoltageUpdate(flags: bv32): (u: BitUpdate)
    ensures u.clear & u.setBits == 0
    ensures u.clear | u.setBits == PLL_ON | RGMII_1V8
    ensures (u.setBits & PLL_ON != 0) == (flags & FLAG_KEEP_PLL_ENABLED != 0)
    ensures (u.setBits & RGMII_1V8 != 0) == (flags & FLAG_RGMII_1V8 != 0)
  {
    var pll := if flags & FLAG_KEEP_PLL_ENABLED != 0 then BitUpdate(0, PLL_ON) else BitUpdate(PLL_ON, 0);
    var io := if flags & FLAG_RGMII_1V8 != 0 then BitUpdate(0, RGMII_1V8) else BitUpdate(RGMII_1V8, 0);
    BitUpdate(pll.clear | io.clear, pll.setBits | io.setBits)
  }

  /** Debug register 0x1f after the PLL and I/O voltage update for `flags`. */
  function PllVoltageValue(flags: bv32, v: bv16): (r: bv16)
    ensures (r & PLL_ON != 0) == (flags & FLAG_KEEP_PLL_ENABLED != 0)
    ensures (r & RGMII_1V8 != 0) == (flags & FLAG_RGMII_1V8 != 0)
    ensures (r ^ v) & !(PLL_ON | RGMII_1V8) == 0
  {
    var u := PllVoltageUpdate(flags);
    MaskedValue(v, u.clear, u.setBits)
  }

  /** The CLK_25M register after the masked update from `p`. */
  function ClkOutValue(p: Priv, v: bv16): (r: bv16)
    ensures r & p.clk25mReg == p.clk25mReg
    ensures (r ^ v) & !(p.clk25mMask | p.clk25mReg) == 0
  {
    MaskedValue(v, p.clk25mMask, p.clk25mReg)
  }

  /** The transactions of ar803x_debug_reg_read: latch the address, read the data window. */
  function ReadScript(reg: bv16): seq<Txn> {
    [C22Write(DEBUG_ADDR_REG, reg), C22Read(DEBUG_DATA_REG)]
  }

  /** The transactions of ar803x_debug_reg_write: latch the address, write the data window. */
  function WriteScript(reg: bv16, val: bv16): seq<Txn> {
    [C22Write(DEBUG_ADDR_REG, reg), C22Write(DEBUG_DATA_REG, val)]
  }

  /** The transactions of ar803x_debug_reg_mask that writes back `val`. */
  function MaskScript(reg: bv16, val: bv16): seq<Txn> {
    ReadScript(reg) + [C22Write(DEBUG_DATA_REG, val)]
  }

  /** The transmit delay step, from the value `v5` of debug register 5. */
  function TxScript(mode: PhyInterface, v5: bv16): seq<Txn> {
    MaskScript(DEBUG_REG_5, TxDelayed(mode, v5))
  }

  /** The receive delay step, from the value `v0` of debug register 0. */
  function RxScript(mode: PhyInterface, v0: bv16): seq<Txn> {
    MaskScript(DEBUG_REG_0, RxDelayed(mode, v0))
  }

  /** The transactions of ar803x_delay_config, from debug registers 5 and 0. */
  function DelayScript(mode: PhyInterface, v5: bv16, v0: bv16): seq<Txn> {
    TxScript(mode, v5) + RxScript(mode, v0)
  }

  /** The PLL and I/O voltage step, from the value `v1f` of debug register 0x1f. */
  function PllVoltageScript(p: Priv, v1f: bv16): seq<Txn> {
    MaskScript(DEBUG_REG_1F, PllVoltageValue(p.flags, v1f))
  }

  /** The CLK_25M step, from its value `clk`: nothing at all when the mask is empty. */
  function ClkOutScript(p: Priv, clk: bv16): seq<Txn> {
    if p.clk25mMask == 0 then [] else [Mmd7Read(MMD7_CLK25M), Mmd7Write(MMD7_CLK25M, ClkOutValue(p, clk))]
  }

  /** The transactions of ar803x_regs_config, from debug register 0x1f and CLK_25M: none without a private record. */
  function RegsScript(priv: Option<Priv>, v1f: bv16, clk: bv16): seq<Txn> {
    match priv
    case None => []
    case Some(p) => PllVoltageScript(p, v1f) + ClkOutScript(p, clk)
  }

  /** The transactions of ar803x_config after the option decoding. */
  function ConfigScript(mode: PhyInterface, priv: Option<Priv>, v5: bv16, v0: bv16, v1f: bv16, clk: bv16): seq<Txn> {
    DelayScript(mode, v5, v0) + RegsScript(priv, v1f, clk)
  }

  /**
    A debug mask issues the latch write, the read and the write-back in that
    order, skipping the write-back when the read fails; the latch, the one
    debug register and nothing else change.
  */
  lemma MaskEffect(r: Regs, reg: bv16, val: bv16, faults: map<nat, Errno>, n: nat)
    requires r.Total()
    ensures Status(ReadScript(reg), faults, n).Fail? ==> Issue(MaskScript(reg, val), faults, n) == Issue(ReadScript(reg), faults, n)
    ensures var r' := Run(r, MaskScript(reg, val), faults, n);
      && r'.c22 == (if n in faults then r.c22 else r.c22[DEBUG_ADDR_REG := reg])
      && r'.debug == (if Status(MaskScript(reg, val), faults, n).Pass? then r.debug[DebugAddr(reg) := val] else r.debug)
      && r'.mmd7 == r.mmd7
  {
    var read := ReadScript(reg);
    var back := C22Write(DEBUG_DATA_REG, val);
    IssueTwo(read[0], read[1], faults, n);
    RunTwo(r, read[0], read[1], faults, n);
    IssueAppend(read, [back], faults, n);
    RunAppend(r, read, [back], faults, n);
    if Status(read, faults, n).Pass? {
      IssueOne(back, faults, n + 2);
      RunOne(Run(r, read, faults, n), back, faults, n + 2);
    }
  }

  /** A failure in the transmit delay step skips the receive delay step. */
  lemma DelaySkipsRx(mode: PhyInterface, v5: bv16, v0: bv16, faults: map<nat, Errno>, n: nat)
    requires Status(TxScript(mode, v5), faults, n).Fail?
    ensures Issue(DelayScript(mode, v5, v0), faults, n) == Issue(TxScript(mode, v5), faults, n)
    ensures Status(DelayScript(mode, v5, v0), faults, n) == Status(TxScript(mode, v5), faults, n)
  {
    IssueAppend(TxScript(mode, v5), RxScript(mode, v0), faults, n);
  }

  /**
    The delay configuration sets or clears the transmit delay bit of debug
    register 5 and then the receive delay bit of debug register 0; only the
    latch and those two debug registers change.
  */
  lemma DelayEffect(r: Regs, mode: PhyInterface, faults: map<nat, Errno>, n: nat)
    requires r.Total()
    ensures var v5, v0 := r.debug[DebugAddr(DEBUG_REG_5)], r.debug[DebugAddr(DEBUG_REG_0)];
      var r' := Run(r, DelayScript(mode, v5, v0), faults, n);
      && r'.debug == r.debug
           [DebugAddr(DEBUG_REG_5) := if Status(TxScript(mode, v5), faults, n).Pass? then TxDelayed(mode, v5) else v5]
           [DebugAddr(DEBUG_REG_0) := if Status(DelayScript(mode, v5, v0), faults, n).Pass? then RxDelayed(mode, v0) else v0]
      && (forall a: C22Reg :: a != DEBUG_ADDR_REG ==> r'.c22[a] == r.c22[a])
      && r'.mmd7 == r.mmd7
  {
    var v5, v0 := r.debug[DebugAddr(DEBUG_REG_5)], r.debug[DebugAddr(DEBUG_REG_0)];
    TwoMasks(r, DEBUG_REG_5, TxDelayed(mode, v5), DEBUG_REG_0, RxDelayed(mode, v0), faults, n);
  }

  /** The delay configuration leaves debug register 0x1f and the MMD device 7 registers alone. */
  lemma DelayKeeps(r: Regs, mode: PhyInterface, faults: map<nat, Errno>, n: nat)
    requires r.Total()
    ensures var r' := Run(r, DelayScript(mode, r.debug[DebugAddr(DEBUG_REG_5)], r.debug[DebugAddr(DEBUG_REG_0)]), faults, n);
      r'.debug[DebugAddr(DEBUG_REG_1F)] == r.debug[DebugAddr(DEBUG_REG_1F)] && r'.mmd7 == r.mmd7
  {
    DelayEffect(r, mode, faults, n);
  }

  /** Two debug masks of different registers in a row, the second run only when the first passes. */
  lemma TwoMasks(r: Regs, reg1: bv16, val1: bv16, reg2: bv16, val2: bv16, faults: map<nat, Errno>, n: nat)
    requires r.Total() && reg1 != reg2
    ensures var s1, s := MaskScript(reg1, val1), MaskScript(reg1, val1) + MaskScript(reg2, val2);
      var r' := Run(r, s, faults, n);
      && r'.debug == r.debug
           [DebugAddr(reg1) := if Status(s1, faults, n).Pass? then val1 else r.debug[DebugAddr(reg1)]]
           [DebugAddr(reg2) := if Status(s, faults, n).Pass? then val2 else r.debug[DebugAddr(reg2)]]
      && (forall a: C22Reg :: a != DEBUG_ADDR_REG ==> r'.c22[a] == r.c22[a])
      && r'.mmd7 == r.mmd7
  {
    var s1, s2 := MaskScript(reg1, val1), MaskScript(reg2, val2);
    IssueAppend(s1, s2, faults, n);
    RunAppend(r, s1, s2, faults, n);
    MaskEffect(r, reg1, val1, faults, n);
    var r1 := Run(r, s1, faults, n);
    if Status(s1, faults, n).Pass? {
      MaskEffect(r1, reg2, val2, faults, n + 3);
      assert Run(r, s1 + s2, faults, n) == Run(r1, s2, faults, n + 3);
    } else {
      assert Run(r, s1 + s2, faults, n) == r1;
    }
  }

  /**
    Debug registers 5 and 0, holding `d5` and `d0` after starting from `v5`
    and `v0`, carry the transmit and receive delay bits exactly when `mode`
    asks for them, and no other bit of either register changed.
  */
  predicate DelayStrapped(mode: PhyInterface, v5: bv16, v0: bv16, d5: bv16, d0: bv16) {
    && (d5 & RGMII_TX_CLK_DLY != 0) == WantsTxDelay(mode)
    && (d0 & RGMII_RX_CLK_DLY != 0) == WantsRxDelay(mode)
    && (d5 ^ v5) & !RGMII_TX_CLK_DLY == 0
    && (d0 ^ v0) & !RGMII_RX_CLK_DLY == 0
  }

  /** The two strap updates put debug registers 5 and 0 in the state the mode asks for. */
  lemma DelayedStrapped(mode: PhyInterface, v5: bv16, v0: bv16)
    ensures DelayStrapped(mode, v5, v0, TxDelayed(mode, v5), RxDelayed(mode, v0))
  {
  }

  /** When the delay configuration completes, the delay straps are those the mode asks for. */
  lemma DelayStraps(r: Regs, mode: PhyInterface, faults: map<nat, Errno>, n: nat)
    requires r.Total()
    requires Status(DelayScript(mode, r.debug[DebugAddr(DEBUG_REG_5)], r.debug[DebugAddr(DEBUG_REG_0)]), faults, n).Pass?
    ensures var v5, v0 := r.debug[DebugAddr(DEBUG_REG_5)], r.debug[DebugAddr(DEBUG_REG_0)];
      var r' := Run(r, DelayScript(mode, v5, v0), faults, n);
      DelayStrapped(mode, v5, v0, r'.debug[DebugAddr(DEBUG_REG_5)], r'.debug[DebugAddr(DEBUG_REG_0)])
  {
    var v5, v0 := r.debug[DebugAddr(DEBUG_REG_5)], r.debug[DebugAddr(DEBUG_REG_0)];
    if Status(TxScript(mode, v5), faults, n).Fail? {
      DelaySkipsRx(mode, v5, v0, faults, n);
    }
    DelayEffect(r, mode, faults, n);
    DelayedStrapped(mode, v5, v0);
  }

  /**
    The transactions of the extended register configuration with a private
    record: the masked update of debug register 0x1f is always issued first;
    CLK_25M is not accessed at all when the mask is empty, and its write-back
    is not issued when its read fails.
  */
  lemma RegsIssue(p: Priv, v1f: bv16, clk: bv16, faults: map<nat, Errno>, n: nat)
    ensures var issued := Issue(RegsScript(Some(p), v1f, clk), faults, n);
      && issued[0] == C22Write(DEBUG_ADDR_REG, DEBUG_REG_1F)
      && (p.clk25mMask == 0 ==> forall t :: t in issued ==> !t.Mmd7Read? && !t.Mmd7Write?)
      && (p.clk25mMask != 0 && Status(PllVoltageScript(p, v1f), faults, n).Pass? ==>
            |issued| > 3 && issued[3] == Mmd7Read(MMD7_CLK25M))
      && (n + 3 in faults ==> forall t :: t in issued ==> !t.Mmd7Write?)
  {
    var pll, out := PllVoltageScript(p, v1f), ClkOutScript(p, clk);
    var issued := Issue(pll + out, faults, n);
    IssueAppend(pll, out, faults, n);
    IssueStopsAtFirstFault(pll, faults, n);
    var head := Issue(pll, faults, n);
    assert forall t :: t in head ==> !t.Mmd7Read? && !t.Mmd7Write? by {
      assert forall t :: t in head ==> t in pll;
    }
    if Status(pll, faults, n).Pass? {
      assert issued == pll + Issue(out, faults, n + 3);
      if p.clk25mMask != 0 {
        IssueTwo(out[0], out[1], faults, n + 3);
      }
    } else {
      assert issued == head;
    }
  }

  /**
    The extended register configuration with a private record changes debug
    register 0x1f once its masked update completes, CLK_25M only when the
    whole sequence completes with a non-empty mask, and no primary register
    but the latch.
  */
  lemma RegsEffect(r: Regs, p: Priv, faults: map<nat, Errno>, n: nat)
    requires r.Total()
    ensures var v1f, clk := r.debug[DebugAddr(DEBUG_REG_1F)], r.mmd7[MMD7_CLK25M];
      var script := RegsScript(Some(p), v1f, clk);
      var r' := Run(r, script, faults, n);
      && r'.debug == (if Status(PllVoltageScript(p, v1f), faults, n).Pass?
                      then r.debug[DebugAddr(DEBUG_REG_1F) := PllVoltageValue(p.flags, v1f)] else r.debug)
      && (p.clk25mMask != 0 && Status(script, faults, n).Pass? ==> r'.mmd7 == r.mmd7[MMD7_CLK25M := ClkOutValue(p, clk)])
      && (p.clk25mMask == 0 || Status(script, faults, n).Fail? ==> r'.mmd7 == r.mmd7)
      && (forall a: C22Reg :: a != DEBUG_ADDR_REG ==> r'.c22[a] == r.c22[a])
  {
    var v1f, clk := r.debug[DebugAddr(DEBUG_REG_1F)], r.mmd7[MMD7_CLK25M];
    var pll, out := PllVoltageScript(p, v1f), ClkOutScript(p, clk);
    IssueAppend(pll, out, faults, n);
    RunAppend(r, pll, out, faults, n);
    MaskEffect(r, DEBUG_REG_1F, PllVoltageValue(p.flags, v1f), faults, n);
    var r1 := Run(r, pll, faults, n);
    if Status(pll, faults, n).Pass? && p.clk25mMask != 0 {
      IssueTwo(out[0], out[1], faults, n + 3);
      RunTwo(r1, out[0], out[1], faults, n + 3);
    } else if Status(pll, faults, n).Pass? {
      assert out == [];
    }
  }

  /**
    Debug register 0x1f, holding `d` after starting from `v`, keeps the PLL on
    exactly when the keep-PLL flag is set and selects 1.8 V I/O exactly when
    that flag is set, and no other bit changed.
  */
  predicate PllVoltageSet(flags: bv32, v: bv16, d: bv16) {
    && (d & PLL_ON != 0) == (flags & FLAG_KEEP_PLL_ENABLED != 0)
    && (d & RGMII_1V8 != 0) == (flags & FLAG_RGMII_1V8 != 0)
    && (d ^ v) & !(PLL_ON | RGMII_1V8) == 0
  }

  /** The masked update of debug register 0x1f puts it in the state the flags ask for. */
  lemma PllVoltageValueSet(flags: bv32, v: bv16)
    ensures PllVoltageSet(flags, v, PllVoltageValue(flags, v))
  {
  }

  /** When the extended register configuration completes with a private record, debug register 0x1f is set as the flags ask. */
  lemma RegsPllVoltage(r: Regs, p: Priv, faults: map<nat, Errno>, n: nat)
    requires r.Total()
    requires Status(RegsScript(Some(p), r.debug[DebugAddr(DEBUG_REG_1F)], r.mmd7[MMD7_CLK25M]), faults, n).Pass?
    ensures var v1f := r.debug[DebugAddr(DEBUG_REG_1F)];
      var r' := Run(r, RegsScript(Some(p), v1f, r.mmd7[MMD7_CLK25M]), faults, n);
      PllVoltageSet(p.flags, v1f, r'.debug[DebugAddr(DEBUG_REG_1F)])
  {
    var v1f, clk := r.debug[DebugAddr(DEBUG_REG_1F)], r.mmd7[MMD7_CLK25M];
    IssueAppend(PllVoltageScript(p, v1f), ClkOutScript(p, clk), faults, n);
    RegsEffect(r, p, faults, n);
    PllVoltageValueSet(p.flags, v1f);
  }

  /**
    The CLK_25M value `c`, updated from `v`, holds the record's fields under
    its mask and keeps every other bit.
  */
  predicate ClkOutProgrammed(p: Priv, v: bv16, c: bv16) {
    FieldProgrammed(p.clk25mMask, p.clk25mReg, v, c)
  }

  /** The value `c`, updated from `v`, holds `field` under `mask` and keeps every other bit. */
  predicate FieldProgrammed(mask: bv16, field: bv16, v: bv16, c: bv16) {
    c & mask == field && (c ^ v) & !mask == 0
  }

  /**
    When the extended register configuration completes with a well-formed
    private record, the CLK_25M bits under the mask hold the decoded value and
    its other bits are kept (with an empty mask, the register is untouched).
  */
  lemma RegsClkOut(r: Regs, p: Priv, faults: map<nat, Errno>, n: nat)
    requires r.Total() && p.WellFormed()
    requires Status(RegsScript(Some(p), r.debug[DebugAddr(DEBUG_REG_1F)], r.mmd7[MMD7_CLK25M]), faults, n).Pass?
    ensures var clk := r.mmd7[MMD7_CLK25M];
      ClkOutProgrammed(p, clk, Run(r, RegsScript(Some(p), r.debug[DebugAddr(DEBUG_REG_1F)], clk), faults, n).mmd7[MMD7_CLK25M])
  {
    var v1f, clk := r.debug[DebugAddr(DEBUG_REG_1F)], r.mmd7[MMD7_CLK25M];
    IssueAppend(PllVoltageScript(p, v1f), ClkOutScript(p, clk), faults, n);
    RegsEffect(r, p, faults, n);
    if p.clk25mMask == 0 {
      ClkOutUntouched(p, clk);
    } else {
      ClkOutFields(p, clk);
    }
  }

  /** A well-formed record with an empty mask programs nothing, so leaving CLK_25M alone is correct. */
  lemma ClkOutUntouched(p: Priv, v: bv16)
    requires p.WellFormed() && p.clk25mMask == 0
    ensures ClkOutProgrammed(p, v, v)
  {
  }

  /** A well-formed record's masked update leaves exactly its fields in the CLK_25M value. */
  lemma ClkOutFields(p: Priv, v: bv16)
    requires p.WellFormed()
    ensures ClkOutProgrammed(p, v, ClkOutValue(p, v))
  {
    FieldMasked(v, p.clk25mMask, p.clk25mReg);
  }

  /** A field inside its mask, written over a value by the masked update, is what the mask then selects; the other bits are kept. */
  lemma FieldMasked(v: bv16, mask: bv16, field: bv16)
    requires field & !mask == 0
    ensures FieldProgrammed(mask, field, v, MaskedValue(v, mask, field))
  {
    FieldSelected(v, mask, field);
    FieldOthersKept(v, mask, field);
  }

  /** Under its mask, the masked update shows exactly the field. */
  lemma FieldSelected(v: bv16, mask: bv16, field: bv16)
    requires field & !mask == 0
    ensures MaskedValue(v, mask, field) & mask == field
  {
  }

  /** Outside its mask, the masked update keeps the old bits. */
  lemma FieldOthersKept(v: bv16, mask: bv16, field: bv16)
    requires field & !mask == 0
    ensures (MaskedValue(v, mask, field) ^ v) & !mask == 0
  {
  }

  /**
    The configuration after option decoding is fail-fast across its two
    stages: a failure in the delay configuration skips the extended register
    configuration, and otherwise that stage runs right after it.
  */
  lemma ConfigSequence(mode: PhyInterface, priv: Option<Priv>, v5: bv16, v0: bv16, v1f: bv16, clk: bv16,
                       faults: map<nat, Errno>, n: nat)
    ensures var delay, regs := DelayScript(mode, v5, v0), RegsScript(priv, v1f, clk);
      Issue(ConfigScript(mode, priv, v5, v0, v1f, clk), faults, n) ==
        if Status(delay, faults, n).Pass? then delay + Issue(regs, faults, n + 6) else Issue(delay, faults, n)
    ensures var delay, regs := DelayScript(mode, v5, v0), RegsScript(priv, v1f, clk);
      Status(ConfigScript(mode, priv, v5, v0, v1f, clk), faults, n) ==
        if Status(delay, faults, n).Pass? then Status(regs, faults, n + 6) else Status(delay, faults, n)
  {
    IssueAppend(DelayScript(mode, v5, v0), RegsScript(priv, v1f, clk), faults, n);
  }

  /**
    A completed configuration is the delay configuration followed by the
    extended register configuration, which starts from the same debug
    register 0x1f and CLK_25M values as the whole.
  */
  lemma ConfigStages(r: Regs, mode: PhyInterface, priv: Option<Priv>, faults: map<nat, Errno>, n: nat)
    requires r.Total()
    requires var v5, v0 := r.debug[DebugAddr(DEBUG_REG_5)], r.debug[DebugAddr(DEBUG_REG_0)];
      Status(ConfigScript(mode, priv, v5, v0, r.debug[DebugAddr(DEBUG_REG_1F)], r.mmd7[MMD7_CLK25M]), faults, n).Pass?
    ensures var v5, v0 := r.debug[DebugAddr(DEBUG_REG_5)], r.debug[DebugAddr(DEBUG_REG_0)];
      var v1f, clk := r.debug[DebugAddr(DEBUG_REG_1F)], r.mmd7[MMD7_CLK25M];
      var r1 := Run(r, DelayScript(mode, v5, v0), faults, n);
      && Status(DelayScript(mode, v5, v0), faults, n).Pass?
      && Status(RegsScript(priv, v1f, clk), faults, n + 6).Pass?
      && Run(r, ConfigScript(mode, priv, v5, v0, v1f, clk), faults, n) == Run(r1, RegsScript(priv, v1f, clk), faults, n + 6)
      && r1.debug[DebugAddr(DEBUG_REG_1F)] == v1f
      && r1.mmd7[MMD7_CLK25M] == clk
  {
    var v5, v0 := r.debug[DebugAddr(DEBUG_REG_5)], r.debug[DebugAddr(DEBUG_REG_0)];
    var v1f, clk := r.debug[DebugAddr(DEBUG_REG_1F)], r.mmd7[MMD7_CLK25M];
    var delay, regs := DelayScript(mode, v5, v0), RegsScript(priv, v1f, clk);
    PassAppend(r, delay, regs, faults, n);
    DelayKeeps(r, mode, faults, n);
  }

  /** The extended register configuration, with or without a private record, leaves debug registers 5 and 0 alone. */
  lemma RegsKeepsStraps(r: Regs, priv: Option<Priv>, faults: map<nat, Errno>, n: nat)
    requires r.Total()
    ensures var r' := Run(r, RegsScript(priv, r.debug[DebugAddr(DEBUG_REG_1F)], r.mmd7[MMD7_CLK25M]), faults, n);
      && r'.debug[DebugAddr(DEBUG_REG_5)] == r.debug[DebugAddr(DEBUG_REG_5)]
      && r'.debug[DebugAddr(DEBUG_REG_0)] == r.debug[DebugAddr(DEBUG_REG_0)]
  {
    if priv.Some? {
      RegsEffect(r, priv.value, faults, n);
    }
  }

  /**
    When the whole configuration completes, with or without a private record,
    the delay straps are still those the interface mode asks for: the
    extended register configuration does not touch debug registers 5 and 0.
  */
  lemma ConfigStraps(r: Regs, mode: PhyInterface, priv: Option<Priv>, faults: map<nat, Errno>, n: nat)
    requires r.Total()
    requires var v5, v0 := r.debug[DebugAddr(DEBUG_REG_5)], r.debug[DebugAddr(DEBUG_REG_0)];
      Status(ConfigScript(mode, priv, v5, v0, r.debug[DebugAddr(DEBUG_REG_1F)], r.mmd7[MMD7_CLK25M]), faults, n).Pass?
    ensures var v5, v0 := r.debug[DebugAddr(DEBUG_REG_5)], r.debug[DebugAddr(DEBUG_REG_0)];
      var r' := Run(r, ConfigScript(mode, priv, v5, v0, r.debug[DebugAddr(DEBUG_REG_1F)], r.mmd7[MMD7_CLK25M]), faults, n);
      DelayStrapped(mode, v5, v0, r'.debug[DebugAddr(DEBUG_REG_5)], r'.debug[DebugAddr(DEBUG_REG_0)])
  {
    var v5, v0 := r.debug[DebugAddr(DEBUG_REG_5)], r.debug[DebugAddr(DEBUG_REG_0)];
    ConfigStages(r, mode, priv, faults, n);
    RegsKeepsStraps(Run(r, DelayScript(mode, v5, v0), faults, n), priv, faults, n + 6);
    DelayStraps(r, mode, faults, n);
  }

  /** When the whole configuration completes with a private record, debug register 0x1f is set as its flags ask. */
  lemma ConfigPllVoltage(r: Regs, mode: PhyInterface, p: Priv, faults: map<nat, Errno>, n: nat)
    requires r.Total()
    requires var v5, v0 := r.debug[DebugAddr(DEBUG_REG_5)], r.debug[DebugAddr(DEBUG_REG_0)];
      Status(ConfigScript(mode, Some(p), v5, v0, r.debug[DebugAddr(DEBUG_REG_1F)], r.mmd7[MMD7_CLK25M]), faults, n).Pass?
    ensures var v5, v0, v1f := r.debug[DebugAddr(DEBUG_REG_5)], r.debug[DebugAddr(DEBUG_REG_0)], r.debug[DebugAddr(DEBUG_REG_1F)];
      var r' := Run(r, ConfigScript(mode, Some(p), v5, v0, v1f, r.mmd7[MMD7_CLK25M]), faults, n);
      PllVoltageSet(p.flags, v1f, r'.debug[DebugAddr(DEBUG_REG_1F)])
  {
    ConfigStages(r, mode, Some(p), faults, n);
    var v5, v0 := r.debug[DebugAddr(DEBUG_REG_5)], r.debug[DebugAddr(DEBUG_REG_0)];
    RegsPllVoltage(Run(r, DelayScript(mode, v5, v0), faults, n), p, faults, n + 6);
  }

  /** When the whole configuration completes with a well-formed private record, CLK_25M holds its decoded fields. */
  lemma ConfigClkOut(r: Regs, mode: PhyInterface, p: Priv, faults: map<nat, Errno>, n: nat)
    requires r.Total() && p.WellFormed()
    requires var v5, v0 := r.debug[DebugAddr(DEBUG_REG_5)], r.debug[DebugAddr(DEBUG_REG_0)];
      Status(ConfigScript(mode, Some(p), v5, v0, r.debug[DebugAddr(DEBUG_REG_1F)], r.mmd7[MMD7_CLK25M]), faults, n).Pass?
    ensures var v5, v0, clk := r.debug[DebugAddr(DEBUG_REG_5)], r.debug[DebugAddr(DEBUG_REG_0)], r.mmd7[MMD7_CLK25M];
      var r' := Run(r, ConfigScript(mode, Some(p), v5, v0, r.debug[DebugAddr(DEBUG_REG_1F)], clk), faults, n);
      ClkOutProgrammed(p, clk, r'.mmd7[MMD7_CLK25M])
  {
    ConfigStages(r, mode, Some(p), faults, n);
    var v5, v0 := r.debug[DebugAddr(DEBUG_REG_5)], r.debug[DebugAddr(DEBUG_REG_0)];
    RegsClkOut(Run(r, DelayScript(mode, v5, v0), faults, n), p, faults, n + 6);
  }

  /**
    ar8021_config ignores both results: the debug register write is issued
    whether or not the BMCR write fails, and each takes effect unless it fails;
    no other primary register but the latch changes.
  */
  lemma Ar8021Effect(r: Regs, faults: map<nat, Errno>, n: nat)
    requires r.Total()
    ensures var w := WriteScript(DEBUG_REG_5, AR8021_DEBUG_5);
      var r' := Run(Run(r, [C22Write(MII_BMCR, AR8021_BMCR)], faults, n), w, faults, n + 1);
      && (n !in faults ==> r'.c22[MII_BMCR] == AR8021_BMCR)
      && (n in faults ==> r'.c22[MII_BMCR] == r.c22[MII_BMCR])
      && r'.debug == (if Status(w, faults, n + 1).Pass? then r.debug[DebugAddr(DEBUG_REG_5) := AR8021_DEBUG_5] else r.debug)
      && r'.mmd7 == r.mmd7
      && (forall a: C22Reg :: a != MII_BMCR && a != DEBUG_ADDR_REG ==> r'.c22[a] == r.c22[a])
  {
    RunOne(r, C22Write(MII_BMCR, AR8021_BMCR), faults, n);
    var r1 := Run(r, [C22Write(MII_BMCR, AR8021_BMCR)], faults, n);
    IssueTwo(C22Write(DEBUG_ADDR_REG, DEBUG_REG_5), C22Write(DEBUG_DATA_REG, AR8021_DEBUG_5), faults, n + 1);
    RunTwo(r1, C22Write(DEBUG_ADDR_REG, DEBUG_REG_5), C22Write(DEBUG_DATA_REG, AR8021_DEBUG_5), faults, n + 1);
  }

  /**
    A PHY on the MDIO bus, as the driver sees it: its register banks, the
    interface mode it is attached with, the private record the option decoder
    leaves behind, and the log of every transaction issued so far. Transaction
    number n fails with `faults[n]` when n is a key of `faults`, and then has
    no effect.
  */
  class PhyDevice {
    var c22: map<C22Reg, bv16>
    var debug: map<DebugAddr, bv16>
    var mmd7: map<MmdReg, bv16>
    var trace: seq<Txn>
    var priv: Option<Priv>
    const iface: PhyInterface
    const faults: map<nat, Errno>

    /** The current contents of the three banks. */
    function Registers(): Regs
      reads this
    {
      Regs(c22, debug, mmd7)
    }

    /** Every register holds a value, and a private record keeps its CLK_25M value inside its mask. */
    ghost predicate Valid()
      reads this
    {
      Registers().Total() && (priv.Some? ==> priv.value.WellFormed())
    }

    constructor (regs: Regs, iface: PhyInterface, faults: map<nat, Errno>)
      requires regs.Total()
      ensures Valid()
      ensures Registers() == regs && trace == [] && priv == None
      ensures this.iface == iface && this.faults == faults
    {
      c22, debug, mmd7 := regs.c22, regs.debug, regs.mmd7;
      trace := [];
      priv := None;
      this.iface := iface;
      this.faults := faults;
    }

    /** Clause 22 write (phy_write with MDIO_DEVAD_NONE); a write to the data window lands in the latched debug register. */
    method PhyWrite(reg: C22Reg, val: bv16) returns (st: Outcome)
      requires Valid()
      modifies this`c22, this`debug, this`trace
      ensures Valid()
      ensures Ran([C22Write(reg, val)], faults, old(trace), old(Registers()), st, trace, Registers())
    {
      var n := |trace|;
      IssueOne(C22Write(reg, val), faults, n);
      RunOne(Registers(), C22Write(reg, val), faults, n);
      trace := trace + [C22Write(reg, val)];
      if n in faults {
        return Fail(faults[n]);
      }
      if reg == DEBUG_DATA_REG {
        debug := debug[DebugAddr(c22[DEBUG_ADDR_REG]) := val];
      } else {
        c22 := c22[reg := val];
      }
      return Pass;
    }

    /** Clause 22 read (phy_read with MDIO_DEVAD_NONE); the data window shows the latched debug register. */
    method PhyRead(reg: C22Reg) returns (r: Result<bv16>)
      requires Valid()
      modifies this`trace
      ensures Valid()
      ensures Ran([C22Read(reg)], faults, old(trace), old(Registers()), r.Status(), trace, Registers())
      ensures r.Ok? ==> r.value == C22Value(Registers(), reg)
    {
      var n := |trace|;
      IssueOne(C22Read(reg), faults, n);
      RunOne(Registers(), C22Read(reg), faults, n);
      trace := trace + [C22Read(reg)];
      if n in faults {
        return Err(faults[n]);
      }
      return Ok(C22Value(Registers(), reg));
    }

    /** Read of a register of MMD device 7 (phy_read_mmd). */
    method PhyReadMmd7(addr: MmdReg) returns (r: Result<bv16>)
      requires Valid()
      modifies this`trace
      ensures Valid()
      ensures Ran([Mmd7Read(addr)], faults, old(trace), old(Registers()), r.Status(), trace, Registers())
      ensures r.Ok? ==> r.value == mmd7[addr]
    {
      var n := |trace|;
      IssueOne(Mmd7Read(addr), faults, n);
      RunOne(Registers(), Mmd7Read(addr), faults, n);
      trace := trace + [Mmd7Read(addr)];
      if n in faults {
        return Err(faults[n]);
      }
      return Ok(mmd7[addr]);
    }

    /** Write of a register of MMD device 7 (phy_write_mmd). */
    method PhyWriteMmd7(addr: MmdReg, val: bv16) returns (st: Outcome)
      requires Valid()
      modifies this`mmd7, this`trace
      ensures Valid()
      ensures Ran([Mmd7Write(addr, val)], faults, old(trace), old(Registers()), st, trace, Registers())
    {
      var n := |trace|;
      IssueOne(Mmd7Write(addr, val), faults, n);
      RunOne(Registers(), Mmd7Write(addr, val), faults, n);
      trace := trace + [Mmd7Write(addr, val)];
      if n in faults {
        return Fail(faults[n]);
      }
      mmd7 := mmd7[addr := val];
      return Pass;
    }

    /**
      ar803x_debug_reg_read: latch the address, then read the data window.
      A failed latch write skips the read.
    */
    method DebugRegRead(reg: bv16) returns (r: Result<bv16>)
      requires Valid()
      modifies this`c22, this`debug, this`trace
      ensures Valid()
      ensures Ran(ReadScript(reg), faults, old(trace), old(Registers()), r.Status(), trace, Registers())
      ensures r.Ok? ==> r.value == old(debug)[DebugAddr(reg)]
    {
      ghost var t0, r0 := trace, Registers();
      var st := PhyWrite(DEBUG_ADDR_REG, reg);
      ghost var t1, r1 := trace, Registers();
      if st.Fail? {
        RanStop([C22Write(DEBUG_ADDR_REG, reg)], [C22Read(DEBUG_DATA_REG)], faults, t0, r0, st, t1, r1);
        return Err(st.errno);
      }
      IssueOne(C22Write(DEBUG_ADDR_REG, reg), faults, |t0|);
      RunOne(r0, C22Write(DEBUG_ADDR_REG, reg), faults, |t0|);
      r := PhyRead(DEBUG_DATA_REG);
      RanThen([C22Write(DEBUG_ADDR_REG, reg)], [C22Read(DEBUG_DATA_REG)], faults, t0, r0, st, t1, r1, r.Status(), trace, Registers());
    }

    /**
      ar803x_debug_reg_write: latch the address, then write the data window.
      A failed latch write skips the data write.
    */
    method DebugRegWrite(reg: bv16, val: bv16) returns (st: Outcome)
      requires Valid()
      modifies this`c22, this`debug, this`trace
      ensures Valid()
      ensures Ran(WriteScript(reg, val), faults, old(trace), old(Registers()), st, trace, Registers())
    {
      ghost var t0, r0 := trace, Registers();
      st := PhyWrite(DEBUG_ADDR_REG, reg);
      ghost var st1, t1, r1 := st, trace, Registers();
      if st.Fail? {
        RanStop([C22Write(DEBUG_ADDR_REG, reg)], [C22Write(DEBUG_DATA_REG, val)], faults, t0, r0, st, t1, r1);
        return;
      }
      st := PhyWrite(DEBUG_DATA_REG, val);
      RanThen([C22Write(DEBUG_ADDR_REG, reg)], [C22Write(DEBUG_DATA_REG, val)], faults, t0, r0, st1, t1, r1, st, trace, Registers());
    }

    /**
      ar803x_debug_reg_mask: read the debug register, clear the bits of
      `clear`, set those of `setBits` and write the value back through the
      still-latched data window. A failed read skips the write.
    */
    method DebugRegMask(reg: bv16, clear: bv16, setBits: bv16) returns (st: Outcome)
      requires Valid()
      modifies this`c22, this`debug, this`trace
      ensures Valid()
      ensures Ran(MaskScript(reg, MaskedValue(old(debug)[DebugAddr(reg)], clear, setBits)),
                  faults, old(trace), old(Registers()), st, trace, Registers())
    {
      ghost var t0, r0 := trace, Registers();
      ghost var back := C22Write(DEBUG_DATA_REG, MaskedValue(debug[DebugAddr(reg)], clear, setBits));
      var r := DebugRegRead(reg);
      ghost var t1, r1 := trace, Registers();
      if r.Err? {
        RanStop(ReadScript(reg), [back], faults, t0, r0, r.Status(), t1, r1);
        return Fail(r.errno);
      }
      var val := r.value;
      val := MaskedValue(val, clear, setBits);
      st := PhyWrite(DEBUG_DATA_REG, val);
      RanThen(ReadScript(reg), [back], faults, t0, r0, r.Status(), t1, r1, st, trace, Registers());
    }

    /**
      ar8021_config: write the basic mode control register, then debug
      register 5, ignoring both results; it always reports success.
    */
    method Ar8021Config() returns (st: Outcome)
      requires Valid()
      modifies this`c22, this`debug, this`trace
      ensures Valid()
      ensures st == Pass
      ensures exists st1, st2, t1, r1 ::
        && Ran([C22Write(MII_BMCR, AR8021_BMCR)], faults, old(trace), old(Registers()), st1, t1, r1)
        && Ran(WriteScript(DEBUG_REG_5, AR8021_DEBUG_5), faults, t1, r1, st2, trace, Registers())
    {
      var st1 := PhyWrite(MII_BMCR, AR8021_BMCR);
      ghost var t1, r1 := trace, Registers();
      var st2 := DebugRegWrite(DEBUG_REG_5, AR8021_DEBUG_5);
      return Pass;
    }

    /**
      ar803x_delay_config: set or clear the transmit delay bit of debug
      register 5 as the interface mode asks, then the receive delay bit of
      debug register 0, returning the first error (the status of the last
      step is then the result: 0 when it passed).
    */
    method DelayConfig() returns (st: Outcome)
      requires Valid()
      modifies this`c22, this`debug, this`trace
      ensures Valid()
      ensures Ran(DelayScript(iface, old(debug)[DebugAddr(DEBUG_REG_5)], old(debug)[DebugAddr(DEBUG_REG_0)]),
                  faults, old(trace), old(Registers()), st, trace, Registers())
    {
      ghost var t0, r0 := trace, Registers();
      ghost var v5, v0 := debug[DebugAddr(DEBUG_REG_5)], debug[DebugAddr(DEBUG_REG_0)];
      ghost var tx, rx := TxScript(iface, v5), RxScript(iface, v0);
      var clear, setBits := RGMII_TX_CLK_DLY, 0;
      if iface == RgmiiTxid || iface == RgmiiId {
        clear, setBits := 0, RGMII_TX_CLK_DLY;
      }
      st := DebugRegMask(DEBUG_REG_5, clear, setBits);
      ghost var st1, t1, r1 := st, trace, Registers();
      assert Ran(tx, faults, t0, r0, st1, t1, r1);
      if st.Fail? {
        RanStop(tx, rx, faults, t0, r0, st, t1, r1);
        return;
      }
      assert r1.debug[DebugAddr(DEBUG_REG_0)] == v0 by {
        MaskEffect(r0, DEBUG_REG_5, TxDelayed(iface, v5), faults, |t0|);
      }
      clear, setBits := RGMII_RX_CLK_DLY, 0;
      if iface == RgmiiRxid || iface == RgmiiId {
        clear, setBits := 0, RGMII_RX_CLK_DLY;
      }
      st := DebugRegMask(DEBUG_REG_0, clear, setBits);
      assert Ran(rx, faults, t1, r1, st, trace, Registers());
      RanThen(tx, rx, faults, t0, r0, st1, t1, r1, st, trace, Registers());
    }

    /**
      ar803x_regs_config: without a private record, nothing. Otherwise the
      masked update of debug register 0x1f for the flags, then, when the
      CLK_25M mask is not empty, its read-modify-write; the first error is
      returned.
    */
    method RegsConfig() returns (st: Outcome)
      requires Valid()
      modifies this`c22, this`debug, this`mmd7, this`trace
      ensures Valid()
      ensures Ran(RegsScript(priv, old(debug)[DebugAddr(DEBUG_REG_1F)], old(mmd7)[MMD7_CLK25M]),
                  faults, old(trace), old(Registers()), st, trace, Registers())
    {
      ghost var t0, r0 := trace, Registers();
      if priv.None? {
        RanNothing(faults, t0, r0);
        return Pass;
      }
      var p := priv.value;
      ghost var v1f, clk := debug[DebugAddr(DEBUG_REG_1F)], mmd7[MMD7_CLK25M];
      ghost var pll, out := PllVoltageScript(p, v1f), ClkOutScript(p, clk);
      var u := PllVoltageUpdate(p.flags);
      st := DebugRegMask(DEBUG_REG_1F, u.clear, u.setBits);
      ghost var st1, t1, r1 := st, trace, Registers();
      assert Ran(pll, faults, t0, r0, st1, t1, r1);
      if st.Fail? {
        RanStop(pll, out, faults, t0, r0, st, t1, r1);
        return;
      }
      if p.clk25mMask != 0 {
        assert mmd7[MMD7_CLK25M] == clk by {
          MaskEffect(r0, DEBUG_REG_1F, PllVoltageValue(p.flags, v1f), faults, |t0|);
        }
        var r := PhyReadMmd7(MMD7_CLK25M);
        ghost var t2, r2 := trace, Registers();
        if r.Err? {
          RanStop([Mmd7Read(MMD7_CLK25M)], [Mmd7Write(MMD7_CLK25M, ClkOutValue(p, clk))], faults, t1, r1, r.Status(), t2, r2);
          RanThen(pll, out, faults, t0, r0, st1, t1, r1, r.Status(), t2, r2);
          return Fail(r.errno);
        }
        var val := r.value;
        val := MaskedValue(val, p.clk25mMask, p.clk25mReg);
        st := PhyWriteMmd7(MMD7_CLK25M, val);
        RanThen([Mmd7Read(MMD7_CLK25M)], [Mmd7Write(MMD7_CLK25M, val)], faults, t1, r1, r.Status(), t2, r2, st, trace, Registers());
        RanThen(pll, out, faults, t0, r0, st1, t1, r1, st, trace, Registers());
        if st.Fail? {
          return;
        }
      } else {
        RanNothing(faults, t1, r1);
        RanThen(pll, out, faults, t0, r0, st1, t1, r1, Pass, t1, r1);
      }
      return Pass;
    }

    /**
      ar803x_config: decode the device-tree options into the private record,
      then run the delay configuration and the extended register
      configuration, returning the first error. A rejected option fails
      before any bus access.
    */
    method Ar803xConfig(dmEth: bool, node: OfNode) returns (st: Outcome)
      requires Valid()
      modifies this`c22, this`debug, this`mmd7, this`trace, this`priv
      ensures Valid()
      ensures OfInit(dmEth, node).Err? ==>
        && st == Fail(OfInit(dmEth, node).errno)
        && trace == old(trace) && Registers() == old(Registers()) && priv == old(priv)
      ensures OfInit(dmEth, node).Ok? ==>
        && priv == (if OfInit(dmEth, node).value.Some? then OfInit(dmEth, node).value else old(priv))
        && Ran(ConfigScript(iface, priv, old(debug)[DebugAddr(DEBUG_REG_5)], old(debug)[DebugAddr(DEBUG_REG_0)],
                            old(debug)[DebugAddr(DEBUG_REG_1F)], old(mmd7)[MMD7_CLK25M]),
               faults, old(trace), old(Registers()), st, trace, Registers())
    {
      var init := OfInit(dmEth, node);
      if init.Err? {
        return Fail(init.errno);
      }
      if init.value.Some? {
        priv := init.value;
      }
      assert trace == old(trace) && Registers() == old(Registers());
      ghost var t0, r0 := trace, Registers();
      ghost var v5, v0 := debug[DebugAddr(DEBUG_REG_5)], debug[DebugAddr(DEBUG_REG_0)];
      ghost var v1f, clk := debug[DebugAddr(DEBUG_REG_1F)], mmd7[MMD7_CLK25M];
      ghost var delay, regs := DelayScript(iface, v5, v0), RegsScript(priv, v1f, clk);
      assert ConfigScript(iface, priv, v5, v0, v1f, clk) == delay + regs;
      st := DelayConfig();
      ghost var st1, t1, r1 := st, trace, Registers();
      if st.Fail? {
        RanStop(delay, regs, faults, t0, r0, st, t1, r1);
        return;
      }
      DelayKeeps(r0, iface, faults, |t0|);
      st := RegsConfig();
      RanThen(delay, regs, faults, t0, r0, st1, t1, r1, st, trace, Registers());
    }
  }
}
