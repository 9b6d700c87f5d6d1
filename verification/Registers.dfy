/** The controller as the driver meets it: registers read and written, and what the accesses add up to. */
module Registers {
  import opened Words
  import opened Fields

  datatype Reg =
    | IntEnable | Config0 | Config1
    | InfoStatus | IntStatus | RespD0 | RespD1 | RespD2 | RespD3 | RespD4
    | SoftReset | SrcDst | Ctrl0 | Ctrl1 | Ctrl2

  datatype Access = Rd(reg: Reg, val: Word) | Wr(reg: Reg, val: Word)

  const START: Word := 0x80

  /** CTRL2 with this value starts a command. */
  predicate Starts(w: Word) { w as int / 0x80 % 2 == 1 }

  /** A command as it was started (CTRL1, CTRL0, SRC_DST and CONFIG1 with it), with the last RESP_D1 and
      INT_STATUS read since. */
  datatype Cmd =
    | NoCmd
    | Cmd(code: nat, arg: Word, block: Word, addr: Word, limits: Word, resp: Word, sts: Word)

  /** What the accesses so far add up to: whether a command may still be running, whether every access so far kept
      the registers of a running command still, the values last written, the command last started and those
      before it, and whether the status was written since that start. */
  datatype View = View(
    running: bool, ok: bool, block: Word, arg: Word, addr: Word, limits: Word, cur: Cmd, past: seq<Cmd>,
    touched: bool)

  /** Every command started, in order. */
  function Issued(v: View): seq<Cmd> { if v.cur.NoCmd? then v.past else v.past + [v.cur] }

  /** Registers a running command relies on. */
  predicate Guarded(r: Reg) {
    r == Config0 || r == Config1 || r == IntStatus || r == SoftReset || r == SrcDst
    || r == Ctrl0 || r == Ctrl1 || r == Ctrl2
  }

  function Amend(c: Cmd, reg: Reg, val: Word): Cmd {
    if c.NoCmd? then c
    else if reg == RespD1 then c.(resp := val)
    else if reg == IntStatus then c.(sts := val)
    else c
  }

  function Note(v: View, a: Access): View {
    match a
    case Rd(reg, val) =>
      View(v.running && !(reg == InfoStatus && val as int % 2 == 0), v.ok, v.block, v.arg, v.addr, v.limits,
           Amend(v.cur, reg, val), v.past, v.touched)
    case Wr(reg, val) =>
      var start := reg == Ctrl2 && Starts(val);
      View(v.running || start,
           v.ok && !(v.running && Guarded(reg)),
           if reg == Ctrl0 then val else v.block,
           if reg == Ctrl1 then val else v.arg,
           if reg == SrcDst then val else v.addr,
           if reg == Config1 then val else v.limits,
           if start then Cmd(val as int % 0x40, v.arg, v.block, v.addr, v.limits, 0, 0) else v.cur,
           if start then Issued(v) else v.past,
           !start && (v.touched || reg == IntStatus))
  }

  /** After reset: nothing running, nothing disturbed, nothing started. */
  const FRESH := View(false, true, 0, 0, 0, 0, NoCmd, [], false)

  /** What a sequence of accesses adds up to. */
  function Watched(v: View, log: seq<Access>): View {
    if log == [] then v else Note(Watched(v, log[..|log| - 1]), log[|log| - 1])
  }

  lemma WatchedOneMore(v: View, log: seq<Access>, a: Access)
    ensures Watched(v, log + [a]) == Note(Watched(v, log), a)
  {
    assert (log + [a])[..|log|] == log;
  }

  /** What was once disturbed stays so: a good sequence is good in every part. */
  lemma {:induction false} OkThroughout(v: View, log: seq<Access>, n: nat)
    requires n <= |log| && Watched(v, log).ok
    ensures Watched(v, log[..n]).ok
    decreases |log|
  {
    if n == |log| {
      assert log[..n] == log;
    } else {
      assert log[..|log| - 1][..n] == log[..n];
      OkThroughout(v, log[..|log| - 1], n);
    }
  }

  // ---------------------------------------------------------------- CONFIG0

  const RATE := Field(0, 16)
  const DRIVE := Field(16, 1)
  const DDR := Field(17, 1)
  const WIDTH := Field(20, 2)

  /** The bits of CONFIG0 a build implements: the divider's width as a modulus, and whether DDR is built in. */
  datatype Bits = Bits(divider: nat, ddr: bool)

  predicate Implemented(b: Bits) { 1 <= b.divider <= 0x1_0000 }

  /** CONFIG0 as the register file holds it. */
  datatype Config = Config(rate: nat, drive: nat, ddr: nat, width: nat)

  predicate Held(b: Bits, c: Config) {
    Implemented(b) && c.rate < b.divider && c.drive < 2 && c.ddr < (if b.ddr then 2 else 1) && c.width < 4
  }

  /** What a read of CONFIG0 returns. */
  function Pack(b: Bits, c: Config): Word
    requires Held(b, c)
  {
    (c.rate + c.drive * 0x1_0000 + c.ddr * 0x2_0000 + c.width * 0x10_0000) as Word
  }

  /** What a write of CONFIG0 leaves: the implemented bits. */
  function Unpack(b: Bits, w: nat): (c: Config)
    requires Implemented(b)
    ensures Held(b, c)
  {
    FieldsByNumber(w);
    Config(Get(w, RATE) % b.divider, Get(w, DRIVE), if b.ddr then Get(w, DDR) else 0, Get(w, WIDTH))
  }

  lemma FieldsByNumber(w: nat)
    ensures Get(w, RATE) == w % 0x1_0000 && Get(w, DRIVE) == w / 0x1_0000 % 2
    ensures Get(w, DDR) == w / 0x2_0000 % 2 && Get(w, WIDTH) == w / 0x10_0000 % 4
  {
    assert Pow2(0) == 1 && Pow2(1) == 2 && Pow2(2) == 4;
    PowAdd(2, 2);
    PowAdd(4, 4);
    PowAdd(8, 8);
    PowAdd(16, 1);
    PowAdd(16, 4);
  }

  lemma PackedFields(rate: nat, drive: nat, ddr: nat, width: nat)
    requires rate < 0x1_0000 && drive < 2 && ddr < 2 && width < 4
    ensures var w := rate + drive * 0x1_0000 + ddr * 0x2_0000 + width * 0x10_0000;
            w % 0x1_0000 == rate && w / 0x1_0000 % 2 == drive && w / 0x2_0000 % 2 == ddr && w / 0x10_0000 % 4 == width
  {
    var w := rate + drive * 0x1_0000 + ddr * 0x2_0000 + width * 0x10_0000;
    assert w / 0x1_0000 == drive + ddr * 2 + width * 0x10;
    assert w / 0x2_0000 == ddr + width * 8;
    assert w / 0x10_0000 == width;
  }

  /** Every field of a read is the field held. */
  lemma PackGet(b: Bits, c: Config)
    requires Held(b, c)
    ensures var w := Pack(b, c) as nat;
            Get(w, RATE) == c.rate && Get(w, DRIVE) == c.drive && Get(w, DDR) == c.ddr && Get(w, WIDTH) == c.width
  {
    FieldsByNumber(Pack(b, c) as nat);
    PackedFields(c.rate, c.drive, c.ddr, c.width);
  }

  /** What was written comes back, as far as it is implemented. */
  lemma PackUnpack(b: Bits, c: Config)
    requires Held(b, c)
    ensures Unpack(b, Pack(b, c) as nat) == c
  {
    PackGet(b, c);
    Small(c.rate, b.divider);
  }

  lemma Small(n: nat, m: nat)
    requires n < m
    ensures n % m == n
  {
  }
}
