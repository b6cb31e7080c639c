# AR803x PHY register configuration, modelled in Dafny

This project models the register-configuration logic of the u-boot driver for
the Atheros AR8021, AR8031/AR8033 and AR8035 Ethernet PHYs
(`drivers/net/phy/atheros.c`).

The model has two parts:

- **Indirect debug-register access.** The driver latches a debug-register
  address in primary register 0x1d, then reads or writes the data window
  0x1e. A masked update reads the register, clears some bits, sets others
  and writes the result back.
- **The configuration entry points.**
  - The AR8021 fixed setup writes the basic mode control register and debug
    register 5.
  - `ar803x_config` runs in three stages. It first decodes the device-tree
    options into the private record: the keep-PLL and 1.8 V I/O flags, and
    the CLK_25M value and mask for the clock-output frequency and drive
    strength. It then sets or clears the RGMII transmit and receive clock
    delay straps as the interface mode asks. Last, it updates debug register
    0x1f and the CLK_25M register of MMD device 7.

Files:

- `outcomes.dfy`: the return conventions. A negative errno, `Outcome` (0 or
  an errno) and `Result` (a value or an errno).
- `register_file.dfy`: the PHY's register banks, the bus transactions, and
  the fail-fast semantics of a sequence of transactions.
  - The register banks are the 32 primary registers, the debug registers
    reached through the latch, and MMD device 7.
  - `Run` gives the registers after a caller that stops at the first failing
    transaction. `Issue` gives the transactions it issues, and `Status`
    gives the error it returns.
  - `Ran` packages those three facts about one call.
- `options.dfy`: the option decoding of `ar803x_of_init` as pure functions
  over a device-tree node. It also holds the CLK_25M code tables, checked
  against reference decoders of the register fields.
- `ar803x.dfy`: the `PhyDevice` class. Its fields are the register banks, the
  log of issued transactions and the private record. Its methods are the
  bus primitives, the three debug accessors and the configuration functions.
  - Each bus-accessing method's postcondition gives, through `Ran`, the
    transactions it issues fail-fast, as a list fixed by its arguments and
    the old register contents. The bus primitives `PhyWrite`, `PhyRead`,
    `PhyReadMmd7` and `PhyWriteMmd7` each issue a one-transaction list:
    `[C22Write(reg, val)]`, `[C22Read(reg)]`, `[Mmd7Read(addr)]` and
    `[Mmd7Write(addr, val)]`. The longer lists are `ReadScript`,
    `WriteScript`, `MaskScript`, `DelayScript`, `RegsScript` and
    `ConfigScript`.
  - Two methods are exceptions:
    - `Ar8021Config` runs two such lists in a row: one BMCR write, then
      `WriteScript`. The second list is issued whatever the first one
      returned.
    - `Ar803xConfig` runs no list when option decoding fails. It returns the
      decoder's error with the log and the registers unchanged.
  - Lemmas about `Run` of those lists state what the source promises about
    the resulting registers.

Whether a bus transaction fails is decided by a fault oracle, `faults`.
Transaction number n fails with `faults[n]` when n is a key of that map. A
failed transaction changes nothing.

## Model

| member | source | states |
|---|---|---|
| Ar803x.PhyDevice.PhyWrite | drivers/net/phy/atheros.c:55-56 | a primary-register write is logged; it fails with the oracle's code and no effect, or lands in the register (in the latched debug register for the data window) |
| Ar803x.PhyDevice.PhyRead | drivers/net/phy/atheros.c:60 | a primary-register read is logged and returns the register's value, the latched debug register for the data window, or the oracle's error |
| Ar803x.PhyDevice.PhyReadMmd7 | drivers/net/phy/atheros.c:162-164 | an MMD device 7 read is logged and returns the register's value or the error |
| Ar803x.PhyDevice.PhyWriteMmd7 | drivers/net/phy/atheros.c:167-169 | an MMD device 7 write is logged and takes effect unless it fails |
| Ar803x.PhyDevice.DebugRegRead | drivers/net/phy/atheros.c:51-61 | the address latch is written first; if it fails its error is returned and the data window is not read; otherwise the result is the read's, and on success it is the debug register's value |
| Ar803x.ReadScript | drivers/net/phy/atheros.c:55-60 | the transactions of a debug read: the address latch write, then the data window read |
| Ar803x.PhyDevice.DebugRegWrite | drivers/net/phy/atheros.c:63-74 | the address latch is written first; a failed latch skips the data write; the status is that of the first failing transaction |
| Ar803x.WriteScript | drivers/net/phy/atheros.c:67-73 | the transactions of a debug write: the address latch write, then the data window write |
| Ar803x.PhyDevice.DebugRegMask | drivers/net/phy/atheros.c:76-91 | read, then write back (old & ~clear) \| set through the still-latched window; a failed read returns its error and issues no write |
| Ar803x.MaskScript | drivers/net/phy/atheros.c:81-89 | the transactions of a debug mask: those of the debug read, then one data window write of the new value, with no second latch write |
| Ar803x.MaskedValue | drivers/net/phy/atheros.c:85-87 | the bits of `set` are set, the bits only in `clear` are cleared, and every other bit keeps its old value |
| Ar803x.MaskIdempotent | drivers/net/phy/atheros.c:85-87 | repeating a masked update with the same clear and set bits changes nothing |
| Ar803x.MaskEffect | drivers/net/phy/atheros.c:76-91 | a debug mask changes only the latch and the one debug register, and that register only when the mask completes; a failed read means no write is issued |
| Ar803x.WantsTxDelay | drivers/net/phy/atheros.c:106-107 | the interface modes that ask for the transmit clock delay: RGMII_TXID and RGMII_ID |
| Ar803x.WantsRxDelay | drivers/net/phy/atheros.c:119-120 | the interface modes that ask for the receive clock delay: RGMII_RXID and RGMII_ID |
| Ar803x.PhyDevice.Ar8021Config | drivers/net/phy/atheros.c:93-100 | BMCR is written with 0x1200, then debug register 5 with 0x3d47 whatever the first write returned, and the result is always 0 |
| Ar803x.Ar8021Effect | drivers/net/phy/atheros.c:95-96 | after ar8021_config, BMCR holds 0x1200 unless its write failed; debug register 5 holds 0x3d47 exactly when its debug write completed; no other primary register but the latch, no other debug register and no MMD register changes |
| Ar803x.TxDelayed | drivers/net/phy/atheros.c:106-117 | the transmit delay bit of debug register 5 is set iff the mode is RGMII_TXID or RGMII_ID; every other bit is kept |
| Ar803x.RxDelayed | drivers/net/phy/atheros.c:119-130 | the receive delay bit of debug register 0 is set iff the mode is RGMII_RXID or RGMII_ID; every other bit is kept |
| Ar803x.TxScript | drivers/net/phy/atheros.c:106-117 | the transmit step: a debug mask of register 5 writing back its transmit-delayed value |
| Ar803x.RxScript | drivers/net/phy/atheros.c:119-130 | the receive step: a debug mask of register 0 writing back its receive-delayed value |
| Ar803x.DelayScript | drivers/net/phy/atheros.c:102-133 | the transactions of the delay configuration: the transmit step, then the receive step |
| Ar803x.PhyDevice.DelayConfig | drivers/net/phy/atheros.c:102-133 | the transmit strap update of debug register 5, then the receive strap update of debug register 0, run fail-fast; the first error is returned |
| Ar803x.DelaySkipsRx | drivers/net/phy/atheros.c:108-116 | a failure in the transmit step returns that error and issues nothing of the receive step |
| Ar803x.DelayEffect | drivers/net/phy/atheros.c:102-133 | the delay configuration changes debug register 5, then debug register 0, each only once its step completes; the other debug registers, the MMD registers and the primary registers other than the latch stay as they were |
| Ar803x.DelayKeeps | drivers/net/phy/atheros.c:102-133 | the delay configuration leaves debug register 0x1f and CLK_25M alone |
| Ar803x.TwoMasks | drivers/net/phy/atheros.c:108-130 | two fail-fast debug masks of different registers change exactly those two registers, the second only when both complete |
| Ar803x.DelayedStrapped | drivers/net/phy/atheros.c:106-130 | the two strap updates give the delay bits the mode asks for and keep the other bits |
| Ar803x.DelayStraps | drivers/net/phy/atheros.c:102-133 | when the delay configuration returns 0, the TX and RX delay bits follow the interface mode and no other bit of debug registers 5 and 0 changed |
| Ar803x.PllVoltageUpdate | drivers/net/phy/atheros.c:146-154 | the PLL_ON and RGMII_1V8 bits are each either set or cleared, never both, as the keep-PLL and 1.8 V flags say |
| Ar803x.PllVoltageValue | drivers/net/phy/atheros.c:146-156 | debug register 0x1f after the update has PLL_ON iff keep-PLL is set and RGMII_1V8 iff 1.8 V I/O is set; other bits are kept |
| Ar803x.PllVoltageValueSet | drivers/net/phy/atheros.c:146-156 | the masked update of debug register 0x1f reaches the state the flags ask for |
| Ar803x.PllVoltageScript | drivers/net/phy/atheros.c:146-156 | the 0x1f step: a debug mask of register 0x1f writing back the value the flags ask for |
| Ar803x.ClkOutScript | drivers/net/phy/atheros.c:160-170 | the CLK_25M step: nothing when the mask is empty, otherwise the MMD device 7 read of 0x8016 and the write-back of the masked value |
| Ar803x.RegsScript | drivers/net/phy/atheros.c:137-172 | the transactions of the extended register configuration: none without a private record, otherwise the 0x1f step then the CLK_25M step |
| Ar803x.ClkOutValue | drivers/net/phy/atheros.c:165-166 | the CLK_25M write-back contains the record's value bits and differs from the old value only under the mask or the value |
| Ar803x.ClkOutFields | drivers/net/phy/atheros.c:161-167 | for a record whose value lies inside its mask, the written CLK_25M holds exactly the value under the mask and the old bits elsewhere |
| Ar803x.FieldMasked | drivers/net/phy/atheros.c:165-166 | the masked update with a field inside its mask leaves exactly that field under the mask and keeps every other bit |
| Ar803x.FieldSelected | drivers/net/phy/atheros.c:165-166 | with a field inside its mask, the masked update shows exactly that field under the mask |
| Ar803x.FieldOthersKept | drivers/net/phy/atheros.c:165-166 | with a field inside its mask, the masked update keeps every bit outside the mask |
| Ar803x.ClkOutUntouched | drivers/net/phy/atheros.c:160-161 | with an empty mask, leaving CLK_25M as it is already programs the record |
| Ar803x.PhyDevice.RegsConfig | drivers/net/phy/atheros.c:135-173 | without a private record nothing is issued and 0 is returned; otherwise the masked update of 0x1f, then (non-empty mask) the CLK_25M read and write-back, run fail-fast |
| Ar803x.RegsIssue | drivers/net/phy/atheros.c:156-170 | with a private record the 0x1f update is always issued first; with an empty mask no MMD transaction is issued; when the 0x1f update passes with a non-empty mask the next transaction is the CLK_25M read, and when that read fails no MMD write is issued |
| Ar803x.RegsEffect | drivers/net/phy/atheros.c:135-173 | debug register 0x1f changes once its update completes; CLK_25M changes to (old & ~mask) \| reg only when the mask is non-empty and the whole sequence completes, and is untouched otherwise; no primary register but the latch changes |
| Ar803x.RegsPllVoltage | drivers/net/phy/atheros.c:146-158 | when the register configuration returns 0, debug register 0x1f's PLL and voltage bits follow the flags and no other bit changed |
| Ar803x.RegsClkOut | drivers/net/phy/atheros.c:160-172 | when the register configuration returns 0, CLK_25M holds the record's fields under its mask and its old bits elsewhere, or is untouched with an empty mask |
| Ar803x.RegsKeepsStraps | drivers/net/phy/atheros.c:135-173 | the extended register configuration, with or without a private record, leaves debug registers 5 and 0 alone |
| Ar803x.PhyDevice.Ar803xConfig | drivers/net/phy/atheros.c:249-271 | an option error is returned before any bus access; otherwise the decoded record is stored and the delay configuration, then the register configuration, run fail-fast |
| Ar803x.ConfigScript | drivers/net/phy/atheros.c:257-263 | the transactions of ar803x_config after option decoding: those of the delay configuration, then those of the extended register configuration |
| Ar803x.ConfigSequence | drivers/net/phy/atheros.c:257-263 | a delay failure is returned and the register configuration is not started; otherwise the register configuration runs next and its status is the result |
| Ar803x.ConfigStages | drivers/net/phy/atheros.c:257-263 | when the whole configuration returns 0, both stages returned 0, and the second stage started from the original 0x1f and CLK_25M values |
| Ar803x.ConfigStraps | drivers/net/phy/atheros.c:249-271 | after a successful configuration, with or without a private record, the delay straps are those the interface mode asks for and no other bit of debug registers 5 and 0 changed |
| Ar803x.ConfigPllVoltage | drivers/net/phy/atheros.c:249-271 | after a successful configuration debug register 0x1f's PLL and voltage bits follow the decoded flags |
| Ar803x.ConfigClkOut | drivers/net/phy/atheros.c:249-271 | after a successful configuration CLK_25M holds the decoded fields under the decoded mask |
| Ar803xOptions.Priv.AddField | drivers/net/phy/atheros.c:209-217 | or-ing in a field keeps the flags, and keeps the value inside the mask when the field lies inside its own mask |
| Ar803xOptions.Flags | drivers/net/phy/atheros.c:196-199 | the keep-PLL flag is set iff "atheros,keep-pll-enabled" is present, the 1.8 V flag iff "atheros,rgmii-io-1v8" is present, and no other flag |
| Ar803xOptions.FrequencyField | drivers/net/phy/atheros.c:210-218 | only 25, 50, 62.5 and 125 MHz have a code, and the code lies in the frequency field |
| Ar803xOptions.StrengthField | drivers/net/phy/atheros.c:229-235 | only "full", "half" and "quarter" have a code, and it lies in the strength field |
| Ar803xOptions.WithFrequency | drivers/net/phy/atheros.c:207-224 | frequency 0 (absent) is accepted and returns the record unchanged; a supported frequency is accepted; any other is rejected; the flags and well-formedness are kept |
| Ar803xOptions.WithStrength | drivers/net/phy/atheros.c:226-240 | an absent strength is accepted and returns the record unchanged; a known name is accepted; any other name is rejected; the flags and well-formedness are kept |
| Ar803xOptions.OfInit | drivers/net/phy/atheros.c:175-247 | without DM_ETH: success and no record; otherwise success iff the node is valid, the frequency is 0 or supported, and the strength is absent or known; every error is -EINVAL; the flags follow the boolean properties; the record's value lies in its mask |
| Ar803xOptions.OfInitMask | drivers/net/phy/atheros.c:207-240 | the decoded mask covers only the frequency and strength fields |
| Ar803xOptions.FrequencyTable | drivers/net/phy/atheros.c:28-36 | every programmed frequency code decodes back to the requested frequency and never selects the DSP source |
| Ar803xOptions.FrequencyTableComplete | drivers/net/phy/atheros.c:28-36 | every crystal or PLL code is the one programmed for its frequency |
| Ar803xOptions.StrengthTable | drivers/net/phy/atheros.c:38-41 | every programmed strength code decodes back to the requested name |
| Ar803xOptions.StrengthTableComplete | drivers/net/phy/atheros.c:38-41 | every strength code is the one programmed for its name |
| Ar803xOptions.FrequencyDecoding | drivers/net/phy/atheros.c:207-224 | a non-zero frequency sets the whole frequency mask and its code; frequency 0 leaves the field's mask and value clear |
| Ar803xOptions.StrengthDecoding | drivers/net/phy/atheros.c:226-240 | a strength sets the whole strength mask and its code; an absent one leaves the field's mask and value clear |
| Ar803xOptions.ClkOutReadBack | drivers/net/phy/atheros.c:207-240 | decoding the programmed CLK_25M fields gives back the requested frequency (crystal or PLL) and strength name |
| RegisterFile.Apply | drivers/net/phy/atheros.c:12-13 | a read changes nothing; a write to the data window lands in the debug register named by the latch |
| RegisterFile.C22Value | drivers/net/phy/atheros.c:12-13 | a primary register read returns the register, except that the data window shows the debug register named by the latch |
| RegisterFile.Step | drivers/net/phy/atheros.c:57-60 | a logged transaction takes effect unless the fault oracle fails it |
| RegisterFile.Replay | drivers/net/phy/atheros.c:57-60 | replaying a transaction log keeps every bank total |
| RegisterFile.Run | drivers/net/phy/atheros.c:57-60 | the registers after a fail-fast caller runs a list of transactions, which keep every bank total: each transaction takes effect in order until the first that fails |
| RegisterFile.Issue | drivers/net/phy/atheros.c:57-60 | a fail-fast caller issues at most its script, and all of it when nothing fails |
| RegisterFile.Status | drivers/net/phy/atheros.c:57-60 | what a fail-fast caller returns for a list of transactions: 0, or the error of the first that fails |
| RegisterFile.IssueStopsAtFirstFault | drivers/net/phy/atheros.c:57-60 | the issued transactions are a prefix of the script, all but the last succeeded, and the error returned is the last one's exactly when it failed |
| RegisterFile.IssueOne | drivers/net/phy/atheros.c:55-58 | a single transaction is issued whether or not it fails, and its status is its own |
| RegisterFile.RunOne | drivers/net/phy/atheros.c:55-58 | a single transaction takes effect unless it fails |
| RegisterFile.IssueTwo | drivers/net/phy/atheros.c:55-60 | of two transactions the second is issued only when the first succeeds, and the status is that of the first failure |
| RegisterFile.RunTwo | drivers/net/phy/atheros.c:55-60 | of two transactions the second takes effect only when both succeed |
| RegisterFile.IssueAppend | drivers/net/phy/atheros.c:253-263 | running one step and then, only if it passed, the next, issues and returns what running the two as one script does |
| RegisterFile.IssuedAppend | drivers/net/phy/atheros.c:253-263 | running one step and then, only if it passed, the next, issues what running the two as one script issues |
| RegisterFile.StatusAppend | drivers/net/phy/atheros.c:253-263 | the same for the returned status: the first step's failure, else the second step's status |
| RegisterFile.RunAppend | drivers/net/phy/atheros.c:253-263 | the same for the register contents |
| RegisterFile.RunIsReplayOfIssued | drivers/net/phy/atheros.c:57-60 | the registers after a fail-fast run are those obtained by replaying the logged transactions, the failed one included |
| RegisterFile.RanNothing | drivers/net/phy/atheros.c:143-144 | running no transactions issues nothing, returns 0 and changes nothing |
| RegisterFile.RanThen | drivers/net/phy/atheros.c:257-263 | a step that passed followed by the next step is the run of both |
| RegisterFile.RanStop | drivers/net/phy/atheros.c:253-255 | a step that failed is the run of it followed by anything |
| RegisterFile.PassAppend | drivers/net/phy/atheros.c:257-263 | a two-stage run that returns 0 returned 0 in both stages, and the second ran on the registers the first left |

## Left out

- The MDIO bus itself, including `phy_write`, `phy_read`, `phy_read_mmd` and
  `phy_write_mmd`. It is replaced by the register-bank model and the fault
  oracle. The model assumes that a failed transaction has no effect and that
  only MMD device 7 is accessed.
- The device-tree accessors are replaced by the `OfNode` value: node
  validity, the two boolean properties, the frequency cell (0 when absent)
  and the strength string.
- The `CONFIG_DM_ETH` compile-time switch is the `dmEth` parameter.
- The `malloc` of the private record and its `-ENOMEM` failure are not
  modelled.
- The model does not follow the private record left behind when option
  decoding fails. It leaves `priv` as it was before the call. The driver
  does two different things here:
  - an invalid node leaves a zeroed record attached;
  - a rejected frequency or strength frees the record while the device still
    points at it.

  No later step of `ar803x_config` reads the record after such an error.
- Logging (`debug`, `dev_err`) is left out.
- The copy of the driver's features into `supported` is left out.
- `genphy_config_aneg` and `genphy_restart_aneg` are left out. Their results
  are ignored by the source.
- The driver tables and `phy_atheros_init` registration are left out.
- `val &= 0xffff` in `ar803x_debug_reg_mask` is the identity on the 16-bit
  register values of the model. `ar803x_regs_config` computes in `int`, and
  its write takes 16 bits of the result. That is the same 16-bit masked
  update, modelled as `MaskedValue`.
- Ar803x.PhyInterface: only the RGMII modes are named. Every other interface
  mode is handled alike by the source, so those modes are lumped into a few
  constructors.
- Ar803x.PhyDevice.DelayConfig: the source has a masked-update call in each
  branch with the same error handling. The model picks the clear and set
  bits per branch and makes one call per step, which issues the same
  transactions.
- Ar803x.PhyDevice.Ar803xConfig: the driver's final 0 return after the
  auto-negotiation calls is the status of the register configuration when
  both stages pass.
- What the AR8021 values 0x1200 (BMCR) and 0x3d47 (debug register 5) mean to
  the hardware is not modelled. Only their placement is.
