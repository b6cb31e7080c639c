/**
  Decoding of the AR803x device-tree options into the driver's private
  record: the keep-PLL and 1.8 V I/O flags, and the value and mask of the
  CLK_25M register (MMD device 7, register 0x8016) that select the clock
  output frequency and drive strength.
*/
module Ar803xOptions {
  import opened Outcomes

  /** A 32-bit unsigned device-tree cell. */
  type U32 = x: int | 0 <= x < 0x1_0000_0000

  /** Flags of the private record. */
  const FLAG_KEEP_PLL_ENABLED: bv32 := 0x1  // 1 << 0
  const FLAG_RGMII_1V8: bv32 := 0x2  // 1 << 1

  /** CLK_25M register, bits 4:2: clock output frequency and its source. */
  const CLK_OUT_25MHZ_XTAL: bv16 := 0x0  // 0 << 2
  const CLK_OUT_25MHZ_DSP: bv16 := 0x4  // 1 << 2
  const CLK_OUT_50MHZ_PLL: bv16 := 0x8  // 2 << 2
  const CLK_OUT_50MHZ_DSP: bv16 := 0xc  // 3 << 2
  const CLK_OUT_62_5MHZ_PLL: bv16 := 0x10  // 4 << 2
  const CLK_OUT_62_5MHZ_DSP: bv16 := 0x14  // 5 << 2
  const CLK_OUT_125MHZ_PLL: bv16 := 0x18  // 6 << 2
  const CLK_OUT_125MHZ_DSP: bv16 := 0x1c  // 7 << 2
  const CLK_OUT_MASK: bv16 := 0x1c  // 7 << 2

  /** CLK_25M register, bits 7:6: clock output drive strength. */
  const CLK_OUT_STRENGTH_FULL: bv16 := 0x0  // 0 << 6
  const CLK_OUT_STRENGTH_HALF: bv16 := 0x40  // 1 << 6
  const CLK_OUT_STRENGTH_QUARTER: bv16 := 0x80  // 2 << 6
  const CLK_OUT_STRENGTH_MASK: bv16 := 0xc0  // 3 << 6

  /** The driver's private record (struct ar803x_priv). A zero mask means "leave CLK_25M alone". */
  datatype Priv = Priv(flags: bv32, clk25mReg: bv16, clk25mMask: bv16) {

    /** The value lies inside the mask, so the masked update touches nothing else. */
    predicate WellFormed() {
      clk25mReg & !clk25mMask == 0
    }

    /** The record with one more CLK_25M field, under `mask`, programmed to `field`. */
    function AddField(mask: bv16, field: bv16): (q: Priv)
      ensures q.flags == flags
      ensures WellFormed() && field & !mask == 0 ==> q.WellFormed()
    {
      Priv(flags, clk25mReg | field, clk25mMask | mask)
    }
  }

  /**
    What the driver reads from the PHY's device-tree node: whether the node is
    valid, the two boolean properties, "atheros,clk-out-frequency" (0 when
    absent) and "atheros,clk-out-strength" (None when absent).
  */
  datatype OfNode = OfNode(
    valid: bool,
    keepPllEnabled: bool,
    rgmiiIo1v8: bool,
    clkOutFrequency: U32,
    clkOutStrength: Option<string>)

  /** The frequency field for a supported frequency: only crystal and PLL sources. */
  function FrequencyField(freq: U32): (f: Option<bv16>)
    ensures f.Some? <==> freq in {25000000, 50000000, 62500000, 125000000}
    ensures f.Some? ==> f.value & !CLK_OUT_MASK == 0
  {
    if freq == 25000000 then Some(CLK_OUT_25MHZ_XTAL)
    else if freq == 50000000 then Some(CLK_OUT_50MHZ_PLL)
    else if freq == 62500000 then Some(CLK_OUT_62_5MHZ_PLL)
    else if freq == 125000000 then Some(CLK_OUT_125MHZ_PLL)
    else None
  }

  /** The strength field for a supported strength name. */
  function StrengthField(s: string): (f: Option<bv16>)
    ensures f.Some? <==> s in {"full", "half", "quarter"}
    ensures f.Some? ==> f.value & !CLK_OUT_STRENGTH_MASK == 0
  {
    if s == "full" then Some(CLK_OUT_STRENGTH_FULL)
    else if s == "half" then Some(CLK_OUT_STRENGTH_HALF)
    else if s == "quarter" then Some(CLK_OUT_STRENGTH_QUARTER)
    else None
  }

  /** Reference decoding of the frequency field, from the register's definition. */
  function ClkOutHz(field: bv16): Option<U32> {
    if field == CLK_OUT_25MHZ_XTAL || field == CLK_OUT_25MHZ_DSP then Some(25000000)
    else if field == CLK_OUT_50MHZ_PLL || field == CLK_OUT_50MHZ_DSP then Some(50000000)
    else if field == CLK_OUT_62_5MHZ_PLL || field == CLK_OUT_62_5MHZ_DSP then Some(62500000)
    else if field == CLK_OUT_125MHZ_PLL || field == CLK_OUT_125MHZ_DSP then Some(125000000)
    else None
  }

  /** The frequency field selects the DSP as reference (synchronous Ethernet). */
  predicate IsDspSource(field: bv16) {
    field == CLK_OUT_25MHZ_DSP || field == CLK_OUT_50MHZ_DSP
    || field == CLK_OUT_62_5MHZ_DSP || field == CLK_OUT_125MHZ_DSP
  }

  /** Reference decoding of the strength field, from the register's definition. */
  function StrengthName(field: bv16): Option<string> {
    if field == CLK_OUT_STRENGTH_FULL then Some("full")
    else if field == CLK_OUT_STRENGTH_HALF then Some("half")
    else if field == CLK_OUT_STRENGTH_QUARTER then Some("quarter")
    else None
  }

  /** The flags word built from the two boolean properties. */
  function Flags(keepPllEnabled: bool, rgmiiIo1v8: bool): (flags: bv32)
    ensures (flags & FLAG_KEEP_PLL_ENABLED != 0) == keepPllEnabled
    ensures (flags & FLAG_RGMII_1V8 != 0) == rgmiiIo1v8
    ensures flags & !(FLAG_KEEP_PLL_ENABLED | FLAG_RGMII_1V8) == 0
  {
    (if keepPllEnabled then FLAG_KEEP_PLL_ENABLED else 0) | (if rgmiiIo1v8 then FLAG_RGMII_1V8 else 0)
  }

  /**
    The clock output frequency property applied to the record: 0 (absent)
    leaves it alone, a supported frequency adds its field under the frequency
    mask, and any other value is rejected.
  */
  function WithFrequency(p: Priv, freq: U32): (q: Option<Priv>)
    ensures q.Some? <==> freq in {0, 25000000, 50000000, 62500000, 125000000}
    ensures freq == 0 ==> q == Some(p)
    ensures q.Some? ==> q.value.flags == p.flags
    ensures q.Some? && p.WellFormed() ==> q.value.WellFormed()
  {
    if freq == 0 then Some(p)
    else match FrequencyField(freq)
      case None => None
      case Some(field) => Some(p.AddField(CLK_OUT_MASK, field))
  }

  /**
    The clock output strength property applied to the record: absent leaves
    it alone, a known name adds its field under the strength mask, and any
    other name is rejected.
  */
  function WithStrength(p: Priv, strength: Option<string>): (q: Option<Priv>)
    ensures q.Some? <==> strength.None? || strength.value in {"full", "half", "quarter"}
    ensures strength.None? ==> q == Some(p)
    ensures q.Some? ==> q.value.flags == p.flags
    ensures q.Some? && p.WellFormed() ==> q.value.WellFormed()
  {
    match strength
    case None => Some(p)
    case Some(name) =>
      match StrengthField(name)
      case None => None
      case Some(field) => Some(p.AddField(CLK_OUT_STRENGTH_MASK, field))
  }

  /**
    Option decoding of ar803x_of_init. Without device-model Ethernet support
    (`dmEth` false) there are no options and no private record. Otherwise an
    invalid node, an unsupported non-zero frequency or an unknown strength
    name is rejected with -EINVAL, and a valid node gives a record whose
    flags hold the two boolean properties.
  */
  function OfInit(dmEth: bool, node: OfNode): (r: Result<Option<Priv>>)
    ensures !dmEth ==> r == Ok(None)
    ensures r.Err? ==> r.errno == -EINVAL
    ensures dmEth ==> (r.Ok? <==>
      node.valid
      && node.clkOutFrequency in {0, 25000000, 50000000, 62500000, 125000000}
      && (node.clkOutStrength.None? || node.clkOutStrength.value in {"full", "half", "quarter"}))
    ensures dmEth && r.Ok? ==> r.value.Some? && r.value.value.flags == Flags(node.keepPllEnabled, node.rgmiiIo1v8)
    ensures r.Ok? && r.value.Some? ==> r.value.value.WellFormed()
  {
    if !dmEth then Ok(None)
    else if !node.valid then Err(-EINVAL)
    else
      var p0 := Priv(Flags(node.keepPllEnabled, node.rgmiiIo1v8), 0, 0);
      match WithFrequency(p0, node.clkOutFrequency)
      case None => Err(-EINVAL)
      case Some(p1) =>
        match WithStrength(p1, node.clkOutStrength)
        case None => Err(-EINVAL)
        case Some(p2) => Ok(Some(p2))
  }

  /** The mask of the decoded record covers no bit outside the frequency and strength fields. */
  lemma OfInitMask(node: OfNode)
    requires OfInit(true, node).Ok?
    ensures OfInit(true, node).value.value.clk25mMask & !(CLK_OUT_MASK | CLK_OUT_STRENGTH_MASK) == 0
  {
  }

  /** A value inside a mask is its own masked part. */
  lemma FieldUnder(f: bv16, mask: bv16)
    requires f & !mask == 0
    ensures f & mask == f
  {
  }

  /** A value inside one field has no bit in a disjoint field. */
  lemma DisjointFields(f: bv16, mask: bv16, other: bv16)
    requires f & !mask == 0 && mask & other == 0
    ensures f & other == 0
  {
  }

  /** Or-ing in bits outside a field leaves that field as it was. */
  lemma FieldAdd(a: bv16, b: bv16, mask: bv16)
    requires b & mask == 0
    ensures (a | b) & mask == a & mask && (b | a) & mask == a & mask
  {
  }

  /**
    The frequency table against the register's definition: a supported
    frequency is programmed as a crystal or PLL code that decodes back to it.
  */
  lemma FrequencyTable(freq: U32)
    requires FrequencyField(freq).Some?
    ensures ClkOutHz(FrequencyField(freq).value) == Some(freq)
    ensures !IsDspSource(FrequencyField(freq).value)
  {
  }

  /** Conversely, every crystal or PLL code is the one the table programs for its frequency. */
  lemma FrequencyTableComplete(field: bv16)
    requires ClkOutHz(field).Some? && !IsDspSource(field)
    ensures FrequencyField(ClkOutHz(field).value) == Some(field)
  {
  }

  /** The strength table against the register's definition: a known name is programmed as a code that decodes back to it. */
  lemma StrengthTable(name: string)
    requires StrengthField(name).Some?
    ensures StrengthName(StrengthField(name).value) == Some(name)
  {
  }

  /** Conversely, every strength code is the one the table programs for its name. */
  lemma StrengthTableComplete(field: bv16)
    requires StrengthName(field).Some?
    ensures StrengthField(StrengthName(field).value) == Some(field)
  {
  }

  /**
    The frequency field of the decoded record: a supported frequency sets the
    whole frequency mask and its table code, and frequency 0 leaves both clear.
  */
  lemma FrequencyDecoding(node: OfNode)
    requires OfInit(true, node).Ok?
    ensures var p := OfInit(true, node).value.value;
      p.clk25mMask & CLK_OUT_MASK == if node.clkOutFrequency == 0 then 0 else CLK_OUT_MASK
    ensures var p := OfInit(true, node).value.value;
      p.clk25mReg & CLK_OUT_MASK ==
        if node.clkOutFrequency == 0 then 0 else FrequencyField(node.clkOutFrequency).value
  {
    var p0 := Priv(Flags(node.keepPllEnabled, node.rgmiiIo1v8), 0, 0);
    var p1 := WithFrequency(p0, node.clkOutFrequency).value;
    var p := WithStrength(p1, node.clkOutStrength).value;
    assert OfInit(true, node) == Ok(Some(p));
    if node.clkOutFrequency != 0 {
      var f := FrequencyField(node.clkOutFrequency).value;
      assert p1 == Priv(p0.flags, 0 | f, 0 | CLK_OUT_MASK);
      FieldUnder(f, CLK_OUT_MASK);
    }
    if node.clkOutStrength.Some? {
      var s := StrengthField(node.clkOutStrength.value).value;
      assert p == Priv(p1.flags, p1.clk25mReg | s, p1.clk25mMask | CLK_OUT_STRENGTH_MASK);
      DisjointFields(s, CLK_OUT_STRENGTH_MASK, CLK_OUT_MASK);
      FieldAdd(p1.clk25mReg, s, CLK_OUT_MASK);
      FieldAdd(p1.clk25mMask, CLK_OUT_STRENGTH_MASK, CLK_OUT_MASK);
    }
  }

  /**
    The strength field of the decoded record: a known name sets the whole
    strength mask and its table code, and an absent strength leaves both clear.
  */
  lemma StrengthDecoding(node: OfNode)
    requires OfInit(true, node).Ok?
    ensures var p := OfInit(true, node).value.value;
      p.clk25mMask & CLK_OUT_STRENGTH_MASK ==
        if node.clkOutStrength.None? then 0 else CLK_OUT_STRENGTH_MASK
    ensures var p := OfInit(true, node).value.value;
      p.clk25mReg & CLK_OUT_STRENGTH_MASK ==
        if node.clkOutStrength.None? then 0 else StrengthField(node.clkOutStrength.value).value
  {
    var p0 := Priv(Flags(node.keepPllEnabled, node.rgmiiIo1v8), 0, 0);
    var p1 := WithFrequency(p0, node.clkOutFrequency).value;
    var p := WithStrength(p1, node.clkOutStrength).value;
    assert OfInit(true, node) == Ok(Some(p));
    if node.clkOutFrequency != 0 {
      var f := FrequencyField(node.clkOutFrequency).value;
      assert p1 == Priv(p0.flags, 0 | f, 0 | CLK_OUT_MASK);
      DisjointFields(f, CLK_OUT_MASK, CLK_OUT_STRENGTH_MASK);
    }
    assert p1.clk25mReg & CLK_OUT_STRENGTH_MASK == 0;
    assert p1.clk25mMask & CLK_OUT_STRENGTH_MASK == 0;
    if node.clkOutStrength.Some? {
      var s := StrengthField(node.clkOutStrength.value).value;
      assert p == Priv(p1.flags, p1.clk25mReg | s, p1.clk25mMask | CLK_OUT_STRENGTH_MASK);
      FieldUnder(s, CLK_OUT_STRENGTH_MASK);
      FieldAdd(s, p1.clk25mReg, CLK_OUT_STRENGTH_MASK);
      FieldAdd(CLK_OUT_STRENGTH_MASK, p1.clk25mMask, CLK_OUT_STRENGTH_MASK);
    }
  }

  /**
    Read-back: decoding the programmed CLK_25M fields with the register's own
    definition gives back the requested frequency (never from the DSP) and
    the requested strength name.
  */
  lemma ClkOutReadBack(node: OfNode)
    requires OfInit(true, node).Ok?
    ensures var p := OfInit(true, node).value.value;
      && (node.clkOutFrequency != 0 ==>
            ClkOutHz(p.clk25mReg & CLK_OUT_MASK) == Some(node.clkOutFrequency)
            && !IsDspSource(p.clk25mReg & CLK_OUT_MASK))
      && (node.clkOutStrength.Some? ==> StrengthName(p.clk25mReg & CLK_OUT_STRENGTH_MASK) == node.clkOutStrength)
  {
    FrequencyDecoding(node);
    StrengthDecoding(node);
    if node.clkOutFrequency != 0 {
      FrequencyTable(node.clkOutFrequency);
    }
    if node.clkOutStrength.Some? {
      StrengthTable(node.clkOutStrength.value);
    }
  }
}
