/**
  The abstract register file of an AR803x PHY as seen over MDIO: the 32
  primary (clause 22) registers, the bank of vendor debug registers reached
  through the address latch 0x1d and the data window 0x1e, and the registers
  of MMD device 7 reached through clause 45 access.  A bus transaction either
  succeeds and takes effect, or fails and changes nothing.
*/
module RegisterFile {
  import opened Outcomes

  /** A primary (clause 22) register number. */
  type C22Reg = r: int | 0 <= r < 32

  /** A register number of an MMD device. */
  type MmdReg = r: int | 0 <= r < 0x1_0000

  /** A vendor debug register, named by the 16-bit value written to the address latch. */
  datatype DebugAddr = DebugAddr(bits: bv16)

  /** Primary register that latches the address of a debug register. */
  const DEBUG_ADDR_REG: C22Reg := 0x1d
  /** Primary register through which the latched debug register is read and written. */
  const DEBUG_DATA_REG: C22Reg := 0x1e

  /** One bus transaction as issued by the driver. */
  datatype Txn =
    | C22Read(reg: C22Reg)
    | C22Write(reg: C22Reg, val: bv16)
    | Mmd7Read(addr: MmdReg)
    | Mmd7Write(addr: MmdReg, val: bv16)

  /** The contents of every register the model knows about. */
  datatype Regs = Regs(c22: map<C22Reg, bv16>, debug: map<DebugAddr, bv16>, mmd7: map<MmdReg, bv16>) {

    /** Every address of every bank holds a value. */
    ghost predicate Total() {
      (forall a: C22Reg :: a in c22) && (forall a: DebugAddr :: a in debug) && (forall a: MmdReg :: a in mmd7)
    }
  }

  /** The value a successful clause 22 read of `reg` returns: the data window shows the latched debug register. */
  function C22Value(r: Regs, reg: C22Reg): bv16
    requires r.Total()
  {
    if reg == DEBUG_DATA_REG then r.debug[DebugAddr(r.c22[DEBUG_ADDR_REG])] else r.c22[reg]
  }

  /** The effect of a successful transaction. */
  function Apply(r: Regs, t: Txn): (r': Regs)
    requires r.Total()
    ensures r'.Total()
    ensures t.C22Read? || t.Mmd7Read? ==> r' == r
  {
    match t
    case C22Read(_) => r
    case C22Write(reg, val) =>
      if reg == DEBUG_DATA_REG then r.(debug := r.debug[DebugAddr(r.c22[DEBUG_ADDR_REG]) := val])
      else r.(c22 := r.c22[reg := val])
    case Mmd7Read(_) => r
    case Mmd7Write(addr, val) => r.(mmd7 := r.mmd7[addr := val])
  }

  /** The effect of transaction number `n`: none when the fault oracle fails it. */
  function Step(r: Regs, t: Txn, faults: map<nat, Errno>, n: nat): Regs
    requires r.Total()
  {
    if n in faults then r else Apply(r, t)
  }

  /** The register file after the logged transactions `ts`, numbered from `n`, starting from `r`. */
  function Replay(r: Regs, ts: seq<Txn>, faults: map<nat, Errno>, n: nat): (r': Regs)
    requires r.Total()
    ensures r'.Total()
    decreases |ts|
  {
    if ts == [] then r else Replay(Step(r, ts[0], faults, n), ts[1..], faults, n + 1)
  }

  /**
    The register file after a fail-fast caller runs `script`, numbered from
    `n`, starting from `r`: the transactions take effect in order until the
    first one that fails.
  */
  function Run(r: Regs, script: seq<Txn>, faults: map<nat, Errno>, n: nat): (r': Regs)
    requires r.Total()
    ensures r'.Total()
    decreases |script|
  {
    if script == [] || n in faults then r else Run(Apply(r, script[0]), script[1..], faults, n + 1)
  }

  /**
    The transactions of `script`, numbered from `n`, that a fail-fast caller
    actually issues: all of them up to and including the first that fails.
  */
  function Issue(script: seq<Txn>, faults: map<nat, Errno>, n: nat): (issued: seq<Txn>)
    ensures |issued| <= |script|
    ensures Status(script, faults, n).Pass? ==> issued == script
    decreases |script|
  {
    if script == [] then []
    else if n in faults then [script[0]]
    else [script[0]] + Issue(script[1..], faults, n + 1)
  }

  /** The status a fail-fast caller returns for `script`: the error of the first failing transaction, if any. */
  function Status(script: seq<Txn>, faults: map<nat, Errno>, n: nat): Outcome
    decreases |script|
  {
    if script == [] then Pass
    else if n in faults then Fail(faults[n])
    else Status(script[1..], faults, n + 1)
  }

  /**
    Fail-fast: the issued transactions are a prefix of the script, all but the
    last succeeded, and the status is the last one's error exactly when it failed.
  */
  lemma {:induction false} IssueStopsAtFirstFault(script: seq<Txn>, faults: map<nat, Errno>, n: nat)
    ensures Issue(script, faults, n) <= script
    ensures forall i :: n <= i < n + |Issue(script, faults, n)| - 1 ==> i !in faults
    ensures Status(script, faults, n) ==
      var k := n + |Issue(script, faults, n)| - 1;
      if script != [] && k in faults then Fail(faults[k]) else Pass
    decreases |script|
  {
    if script != [] && n !in faults {
      IssueStopsAtFirstFault(script[1..], faults, n + 1);
    }
  }

  /** A single transaction is issued whether or not it fails, and its status is its own. */
  lemma IssueOne(t: Txn, faults: map<nat, Errno>, n: nat)
    ensures Issue([t], faults, n) == [t]
    ensures Status([t], faults, n) == if n in faults then Fail(faults[n]) else Pass
  {
    assert [t][1..] == [];
  }

  /** A single transaction takes effect unless it fails. */
  lemma RunOne(r: Regs, t: Txn, faults: map<nat, Errno>, n: nat)
    requires r.Total()
    ensures Run(r, [t], faults, n) == if n in faults then r else Apply(r, t)
  {
    assert [t][1..] == [];
  }

  /** Running `a` and then, if it passed, `b` issues and returns what running `a + b` does. */
  lemma IssueAppend(a: seq<Txn>, b: seq<Txn>, faults: map<nat, Errno>, n: nat)
    ensures Issue(a + b, faults, n) ==
      if Status(a, faults, n).Pass? then a + Issue(b, faults, n + |a|) else Issue(a, faults, n)
    ensures Status(a + b, faults, n) ==
      if Status(a, faults, n).Pass? then Status(b, faults, n + |a|) else Status(a, faults, n)
  {
    IssuedAppend(a, b, faults, n);
    StatusAppend(a, b, faults, n);
  }

  /** The transactions issued for `a + b`: those of `a`, and those of `b` only when `a` passed. */
  lemma {:induction false} IssuedAppend(a: seq<Txn>, b: seq<Txn>, faults: map<nat, Errno>, n: nat)
    ensures Issue(a + b, faults, n) ==
      if Status(a, faults, n).Pass? then a + Issue(b, faults, n + |a|) else Issue(a, faults, n)
    decreases |a|
  {
    if a == [] {
      assert a + b == b;
    } else {
      assert (a + b)[0] == a[0];
      assert (a + b)[1..] == a[1..] + b;
      if n !in faults {
        IssuedAppend(a[1..], b, faults, n + 1);
        if Status(a, faults, n).Pass? {
          assert a == [a[0]] + a[1..];
        }
      }
    }
  }

  /** The status returned for `a + b`: that of `a` when it failed, otherwise that of `b`. */
  lemma {:induction false} StatusAppend(a: seq<Txn>, b: seq<Txn>, faults: map<nat, Errno>, n: nat)
    ensures Status(a + b, faults, n) ==
      if Status(a, faults, n).Pass? then Status(b, faults, n + |a|) else Status(a, faults, n)
    decreases |a|
  {
    if a == [] {
      assert a + b == b;
    } else {
      assert (a + b)[0] == a[0];
      assert (a + b)[1..] == a[1..] + b;
      if n !in faults {
        StatusAppend(a[1..], b, faults, n + 1);
      }
    }
  }

  /** Running `a` and then, if it passed, `b` changes the registers as running `a + b` does. */
  lemma {:induction false} RunAppend(r: Regs, a: seq<Txn>, b: seq<Txn>, faults: map<nat, Errno>, n: nat)
    requires r.Total()
    ensures Run(r, a + b, faults, n) ==
      if Status(a, faults, n).Pass? then Run(Run(r, a, faults, n), b, faults, n + |a|) else Run(r, a, faults, n)
    decreases |a|
  {
    if a == [] {
      assert a + b == b;
    } else if n in faults {
      assert a + b != [];
    } else {
      var r1 := Apply(r, a[0]);
      assert (a + b)[0] == a[0];
      assert (a + b)[1..] == a[1..] + b;
      assert Run(r, a + b, faults, n) == Run(r1, a[1..] + b, faults, n + 1);
      assert Run(r, a, faults, n) == Run(r1, a[1..], faults, n + 1);
      assert Status(a, faults, n) == Status(a[1..], faults, n + 1);
      RunAppend(r1, a[1..], b, faults, n + 1);
    }
  }

  /**
    A fail-fast caller that started with log `t` and registers `r` has run
    `script`, ending with status `st`, log `t'` and registers `r'`: it issued
    the script up to the first failure, returned that failure's error, and
    every transaction before it took effect.
  */
  ghost predicate Ran(script: seq<Txn>, faults: map<nat, Errno>, t: seq<Txn>, r: Regs, st: Outcome, t': seq<Txn>, r': Regs) {
    && r.Total()
    && t' == t + Issue(script, faults, |t|)
    && st == Status(script, faults, |t|)
    && r' == Run(r, script, faults, |t|)
  }

  /** Running nothing issues nothing, passes and changes nothing. */
  lemma RanNothing(faults: map<nat, Errno>, t: seq<Txn>, r: Regs)
    requires r.Total()
    ensures Ran([], faults, t, r, Pass, t, r)
  {
  }

  /** Running `a`, and when it passes running `b` next, is running `a + b`. */
  lemma RanThen(a: seq<Txn>, b: seq<Txn>, faults: map<nat, Errno>,
                t0: seq<Txn>, r0: Regs, st1: Outcome, t1: seq<Txn>, r1: Regs, st2: Outcome, t2: seq<Txn>, r2: Regs)
    requires Ran(a, faults, t0, r0, st1, t1, r1) && st1.Pass?
    requires Ran(b, faults, t1, r1, st2, t2, r2)
    ensures Ran(a + b, faults, t0, r0, st2, t2, r2)
  {
    IssueAppend(a, b, faults, |t0|);
    RunAppend(r0, a, b, faults, |t0|);
    assert t1 == t0 + a;
    AppendAssoc(t0, a, Issue(b, faults, |t1|));
  }

  /** Concatenation is associative. */
  lemma AppendAssoc<T>(a: seq<T>, b: seq<T>, c: seq<T>)
    ensures (a + b) + c == a + (b + c)
  {
  }

  /** Running `a` and stopping at its failure is running `a + b`. */
  lemma RanStop(a: seq<Txn>, b: seq<Txn>, faults: map<nat, Errno>, t0: seq<Txn>, r0: Regs, st: Outcome, t1: seq<Txn>, r1: Regs)
    requires Ran(a, faults, t0, r0, st, t1, r1) && st.Fail?
    ensures Ran(a + b, faults, t0, r0, st, t1, r1)
  {
    IssueAppend(a, b, faults, |t0|);
    RunAppend(r0, a, b, faults, |t0|);
  }

  /** A script that passes as a whole passed in both halves, and ran its second half after its first. */
  lemma PassAppend(r: Regs, a: seq<Txn>, b: seq<Txn>, faults: map<nat, Errno>, n: nat)
    requires r.Total() && Status(a + b, faults, n).Pass?
    ensures Status(a, faults, n).Pass? && Status(b, faults, n + |a|).Pass?
    ensures Run(r, a + b, faults, n) == Run(Run(r, a, faults, n), b, faults, n + |a|)
  {
    IssueAppend(a, b, faults, n);
    RunAppend(r, a, b, faults, n);
  }

  /** Two transactions: the second is issued only when the first succeeds. */
  lemma IssueTwo(t1: Txn, t2: Txn, faults: map<nat, Errno>, n: nat)
    ensures Issue([t1, t2], faults, n) == if n in faults then [t1] else [t1, t2]
    ensures Status([t1, t2], faults, n) ==
      if n in faults then Fail(faults[n]) else if n + 1 in faults then Fail(faults[n + 1]) else Pass
  {
    assert [t1, t2] == [t1] + [t2];
    IssueOne(t1, faults, n);
    IssueOne(t2, faults, n + 1);
    IssueAppend([t1], [t2], faults, n);
  }

  /** Two transactions: the second takes effect only when both succeed. */
  lemma RunTwo(r: Regs, t1: Txn, t2: Txn, faults: map<nat, Errno>, n: nat)
    requires r.Total()
    ensures Run(r, [t1, t2], faults, n) ==
      if n in faults then r else if n + 1 in faults then Apply(r, t1) else Apply(Apply(r, t1), t2)
  {
    assert [t1, t2] == [t1] + [t2];
    IssueOne(t1, faults, n);
    RunOne(r, t1, faults, n);
    if n !in faults {
      RunOne(Apply(r, t1), t2, faults, n + 1);
    }
    RunAppend(r, [t1], [t2], faults, n);
  }

  /**
    The fail-fast run agrees with the transaction log: replaying the issued
    transactions, the failed last one included, gives the same registers.
  */
  lemma {:induction false} RunIsReplayOfIssued(r: Regs, script: seq<Txn>, faults: map<nat, Errno>, n: nat)
    requires r.Total()
    ensures Run(r, script, faults, n) == Replay(r, Issue(script, faults, n), faults, n)
    decreases |script|
  {
    if script != [] {
      if n in faults {
        assert Issue(script, faults, n) == [script[0]];
        assert [script[0]][1..] == [];
      } else {
        var rest := Issue(script[1..], faults, n + 1);
        assert ([script[0]] + rest)[1..] == rest;
        RunIsReplayOfIssued(Apply(r, script[0]), script[1..], faults, n + 1);
      }
    }
  }
}
