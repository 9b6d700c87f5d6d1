/** The driver: register accesses, polling and retry loops, against a controller that may answer anything. */
module Driver {
  import opened Words
  import opened Fields
  import opened Registers
  import ClockRate

  datatype Status = Success | Failure

  const ALL_BITS: Word := 0xFFFF_FFFF

  /** What a read returns once the script is over: idle, no timeout, card ready. Every loop then ends, so each
      terminating run of the driver is one of a finite script. */
  const DONE: Word := 0x8000_0000

  /** The commands that share one shape, with their parameters. */
  datatype Api =
    | SetRelativeAddr(addr: Word)
    | Switch(access: Word, index: Word, value: Word, cmdSet: Word)
    | SelectCard | DeselectCard | SendExtCsd(mem: Word) | SendCsd | SendCid | StopTransmission | SendStatus
    | SetBlockLength(len: Word) | SetBlockCount(count: Word)
    | WriteBlock(mem: Word) | ReadBlock(mem: Word) | BusTestW(mem: Word, bytes: Word) | BusTestR(mem: Word, bytes: Word)

  function Code(a: Api): nat {
    match a
    case SetRelativeAddr(_) => 3
    case Switch(_, _, _, _) => 6
    case SelectCard => 7
    case DeselectCard => 7
    case SendExtCsd(_) => 8
    case SendCsd => 9
    case SendCid => 10
    case StopTransmission => 12
    case SendStatus => 13
    case BusTestR(_, _) => 14
    case SetBlockLength(_) => 16
    case ReadBlock(_) => 17
    case BusTestW(_, _) => 19
    case SetBlockCount(_) => 23
    case WriteBlock(_) => 24
  }

  /** CONFIG1: commands that read data or long registers get the longest data timeout that can expire. */
  function Timeouts(a: Api): Word {
    if a.SendExtCsd? || a.SendCsd? || a.SendCid? || a.ReadBlock? || a.BusTestR? then 0xFFFE_0000 else 0
  }

  function Argument(a: Api, tgtAddr: Word): Word {
    match a
    case SetRelativeAddr(addr) => addr
    case Switch(access, index, value, cmdSet) =>
      SetWord(SetWord(SetWord(SetWord(0, access as nat, Field(24, 2)), index as nat, Field(16, 8)),
                      value as nat, Field(8, 8)), cmdSet as nat, Field(0, 3))
    case DeselectCard => 0
    case SendExtCsd(_) => 0
    case BusTestW(_, _) => 0
    case BusTestR(_, _) => 0
    case SetBlockLength(len) => len
    case SetBlockCount(count) => count
    case _ => tgtAddr
  }

  /** get_block_size_encoding */
  function Encoding(len: nat): nat {
    if len == 16 then 4 else if len == 32 then 5 else if len == 64 then 6 else if len == 128 then 7
    else if len == 256 then 8 else if len == 512 then 9 else if len == 1024 then 10 else if len == 2048 then 11
    else if len == 4096 then 12 else if len == 8192 then 13 else if len == 16384 then 14
    else if len == 32768 then 15 else 9
  }

  /** The encoding means the length exactly for the sixteen-byte to 32 KB powers of two. */
  lemma EncodingIff(len: nat)
    ensures Pow2(Encoding(len)) == len <==> exists k :: 4 <= k <= 15 && len == Pow2(k)
  {
    assert Pow2(4) == 16 && Pow2(5) == 32 && Pow2(6) == 64 && Pow2(7) == 128;
    assert Pow2(8) == 256 && Pow2(9) == 512 && Pow2(10) == 1024 && Pow2(11) == 2048;
    assert Pow2(12) == 4096 && Pow2(13) == 8192 && Pow2(14) == 16384 && Pow2(15) == 32768;
  }

  /** The four fields of a switch argument come out as put in, each cut to its width. */
  lemma SwitchArgument(access: Word, index: Word, value: Word, cmdSet: Word, tgtAddr: Word)
    ensures var w := Argument(Switch(access, index, value, cmdSet), tgtAddr) as nat;
            && Get(w, Field(24, 2)) == access as nat % Pow2(2) && Get(w, Field(16, 8)) == index as nat % Pow2(8)
            && Get(w, Field(8, 8)) == value as nat % Pow2(8) && Get(w, Field(0, 3)) == cmdSet as nat % Pow2(3)
  {
    var a, i, v, c := Field(24, 2), Field(16, 8), Field(8, 8), Field(0, 3);
    var w1 := SetWord(0, access as nat, a);
    var w2 := SetWord(w1, index as nat, i);
    var w3 := SetWord(w2, value as nat, v);
    SetKeepsOther(w1 as nat, index as nat, i, a);
    SetKeepsOther(w2 as nat, value as nat, v, a);
    SetKeepsOther(w2 as nat, value as nat, v, i);
    SetKeepsOther(w3 as nat, cmdSet as nat, c, a);
    SetKeepsOther(w3 as nat, cmdSet as nat, c, i);
    SetKeepsOther(w3 as nat, cmdSet as nat, c, v);
  }

  const BLOCK_LEN := Field(0, 4)
  const NUM_BLOCKS := Field(16, 16)

  /** CTRL0 of a one-block transfer. */
  function OneBlock(len: Word): Word {
    SetWord(SetWord(0, Encoding(len as nat), BLOCK_LEN), 1, NUM_BLOCKS)
  }

  lemma OneBlockParts(len: Word)
    ensures Get(OneBlock(len) as nat, NUM_BLOCKS) == 1 % Pow2(NUM_BLOCKS.len)
    ensures Get(OneBlock(len) as nat, BLOCK_LEN) == Encoding(len as nat) % Pow2(BLOCK_LEN.len)
  {
    var w := SetWord(0, Encoding(len as nat), BLOCK_LEN);
    SetKeepsOther(w as nat, 1, NUM_BLOCKS, BLOCK_LEN);
  }

  lemma BlockPowers()
    ensures Pow2(NUM_BLOCKS.len) == 0x1_0000 && Pow2(BLOCK_LEN.len) == 16
  {
    assert Pow2(4) == 16;
    PowAdd(4, 4);
    PowAdd(8, 8);
  }

  /** It says one block, of the encoded length. */
  lemma OneBlockField(len: Word)
    ensures Get(OneBlock(len) as nat, NUM_BLOCKS) == 1
    ensures Get(OneBlock(len) as nat, BLOCK_LEN) == Encoding(len as nat)
  {
    OneBlockParts(len);
    BlockPowers();
    Small(1, Pow2(NUM_BLOCKS.len));
    Small(Encoding(len as nat), Pow2(BLOCK_LEN.len));
  }

  function Block(a: Api, blockSize: Word): Word {
    match a
    case SendExtCsd(_) => OneBlock(blockSize)
    case WriteBlock(_) => OneBlock(blockSize)
    case ReadBlock(_) => OneBlock(blockSize)
    case BusTestW(_, bytes) => OneBlock(bytes)
    case BusTestR(_, bytes) => OneBlock(bytes)
    case _ => 0
  }

  /** SRC_DST, for the commands that write it. */
  function Memory(a: Api): Option<Word> {
    match a
    case SendExtCsd(mem) => Some(mem)
    case WriteBlock(mem) => Some(mem)
    case ReadBlock(mem) => Some(mem)
    case BusTestW(mem, _) => Some(mem)
    case BusTestR(mem, _) => Some(mem)
    case _ => None
  }

  /** The fields of CONFIG0 the handle mirrors. */
  datatype Item = SckRate | DdrMode | IoWidth | IoDrive

  const OP_COND_ARG: Word := 0x40FF_8080

  function FieldOf(i: Item): Field {
    match i
    case SckRate => RATE
    case DdrMode => DDR
    case IoWidth => WIDTH
    case IoDrive => DRIVE
  }

  function ItemOf(c: Config, i: Item): nat {
    match i
    case SckRate => c.rate
    case DdrMode => c.ddr
    case IoWidth => c.width
    case IoDrive => c.drive
  }

  /** The values a build keeps whole. */
  predicate InRange(b: Bits, i: Item, v: nat) {
    match i
    case SckRate => v < b.divider
    case DdrMode => v == 0 || (b.ddr && v == 1)
    case IoWidth => v < 4
    case IoDrive => v < 2
  }

  lemma SmallFields()
    ensures Pow2(RATE.len) == 0x1_0000 && Pow2(DDR.len) == 2 && Pow2(WIDTH.len) == 4 && Pow2(DRIVE.len) == 2
  {
    assert Pow2(4) == 16;
    PowAdd(4, 4);
    PowAdd(8, 8);
  }

  /** Rewriting one field of what was read changes that field only, to the value if it is in range. */
  lemma Rewritten(b: Bits, w: Word, v: nat, i: Item)
    requires Implemented(b)
    ensures var c, d := Unpack(b, w as nat), Unpack(b, SetWord(w, v, FieldOf(i)) as nat);
            && (InRange(b, i, v) ==> ItemOf(d, i) == v)
            && (i != SckRate ==> d.rate == c.rate) && (i != DdrMode ==> d.ddr == c.ddr)
            && (i != IoWidth ==> d.width == c.width) && (i != IoDrive ==> d.drive == c.drive)
  {
    SmallFields();
    if InRange(b, i, v) {
      Small(v, Pow2(FieldOf(i).len));
      if i == SckRate { Small(v, b.divider); }
    }
    if i != SckRate { SetKeepsOther(w as nat, v, FieldOf(i), RATE); }
    if i != DdrMode { SetKeepsOther(w as nat, v, FieldOf(i), DDR); }
    if i != IoWidth { SetKeepsOther(w as nat, v, FieldOf(i), WIDTH); }
    if i != IoDrive { SetKeepsOther(w as nat, v, FieldOf(i), DRIVE); }
  }

  datatype Settings = Settings(rate: nat, ddr: nat, width: nat, drive: nat)

  function InRangeItems(b: Bits, v: Settings): set<Item> {
    (if InRange(b, SckRate, v.rate) then {SckRate} else {}) + (if InRange(b, DdrMode, v.ddr) then {DdrMode} else {})
    + (if InRange(b, IoWidth, v.width) then {IoWidth} else {})
    + (if InRange(b, IoDrive, v.drive) then {IoDrive} else {})
  }

  /** The test before the write: some field read differs from its setting. */
  predicate Differs(rdat: Word, v: Settings) {
    || v.rate != Get(rdat as nat, RATE) || v.ddr != Get(rdat as nat, DDR)
    || v.width != Get(rdat as nat, WIDTH) || v.drive != Get(rdat as nat, DRIVE)
  }

  /** Every setting in range is what CONFIG0 holds. */
  predicate Reaches(b: Bits, v: Settings, c: Config) {
    && (InRange(b, SckRate, v.rate) ==> c.rate == v.rate) && (InRange(b, DdrMode, v.ddr) ==> c.ddr == v.ddr)
    && (InRange(b, IoWidth, v.width) ==> c.width == v.width) && (InRange(b, IoDrive, v.drive) ==> c.drive == v.drive)
  }

  /** The interface. */
  datatype Call =
    | Plain(api: Api) | GoIdle | SendOpCond | AllSendCid | CheckError | GetResponse
    | ClockFreq(f: nat) | Ddr(v: nat) | Width(v: nat) | ClkIo(f: nat, ddr: nat, width: nat, drive: nat)

  /** Frequencies that do not make the driver divide by zero. */
  predicate InDomain(c: Call) { c.ClockFreq? || c.ClkIo? ==> 2 * c.f % ClockRate.WRAP != 0 }

  /** A command with no data: block setting and timeouts are zero. */
  predicate Is(c: Cmd, code: nat, arg: Word) {
    c.Cmd? && c.code == code && c.arg == arg && c.block == 0 && c.limits == 0
  }

  /** One command after another of this code and argument, and at least one, since there were `first` commands. */
  ghost predicate OnlySince(v: View, first: nat, code: nat, arg: Word) {
    first <= |v.past| && Is(v.cur, code, arg) && forall k :: first <= k < |v.past| ==> Is(v.past[k], code, arg)
  }

  /** Either timeout bit of INT_STATUS. */
  predicate TimedOut(sts: Word) { sts as int / 0x10_0000 % 4 != 0 }

  /** OCR[31] */
  predicate IsReady(ocr: Word) { ocr >= 0x8000_0000 }

  /** A command that timed out or was answered with a busy card. */
  predicate NotReady(c: Cmd) { c.Cmd? && (TimedOut(c.sts) || !IsReady(c.resp)) }

  /** From the n-th access of the log on, the five response registers were read, in order, with these values. */
  predicate Got(log: seq<Access>, rsp: seq<Word>, n: nat) {
    && |rsp| == 5 && n + 5 <= |log|
    && log[n] == Rd(RespD0, rsp[0]) && log[n + 1] == Rd(RespD1, rsp[1]) && log[n + 2] == Rd(RespD2, rsp[2])
    && log[n + 3] == Rd(RespD3, rsp[3]) && log[n + 4] == Rd(RespD4, rsp[4])
  }

  lemma GotStays(log: seq<Access>, more: seq<Access>, rsp: seq<Word>, n: nat)
    requires Got(log, rsp, n) && log <= more
    ensures Got(more, rsp, n)
  {
  }

  class Driver {
    const bits: Bits
    const baseAddr: Word

    /** The handle. */
    var sysClkFreqKhz: nat
    var sckRate: nat
    var sckFreqKhz: nat
    var ddrMode: nat
    var ioWidth: nat
    var ioDrive: nat
    var tgtAddr: Word
    var blockSize: Word
    var rspData: seq<Word>

    /** The controller: CONFIG0 as the register file holds it, and the values of the other reads to come. */
    var config0: Config
    var script: seq<Word>

    /** The accesses made so far, what they add up to, and the fields the handle is known to mirror. */
    ghost var trace: seq<Access>
    ghost var view: View
    ghost var known: set<Item>

    ghost predicate Logged()
      reads this`trace, this`view
    {
      view == Watched(FRESH, trace)
    }

    ghost predicate Valid()
      reads this
    {
      && Logged() && Held(bits, config0) && |rspData| == 5
      && (SckRate in known ==> sckRate == config0.rate) && (DdrMode in known ==> ddrMode == config0.ddr)
      && (IoWidth in known ==> ioWidth == config0.width) && (IoDrive in known ==> ioDrive == config0.drive)
    }

    /** Between calls no command is running and none was ever disturbed. */
    ghost predicate Ready()
      reads this
    {
      Valid() && view.ok && !view.running
    }

    // ---------------------------------------------------------------- accesses

    /** Exactly this access has been added to the log. */
    twostate predicate Logs(a: Access)
      reads this`trace
    {
      |trace| == |old(trace)| + 1 && old(trace) <= trace && trace[|old(trace)|] == a
    }

    /** Every access goes into the log. */
    ghost method Log(a: Access)
      requires Logged()
      modifies this`trace, this`view
      ensures Logged() && view == Note(old(view), a) && trace == old(trace) + [a]
    {
      WatchedOneMore(FRESH, trace, a);
      trace, view := trace + [a], Note(view, a);
    }

    method Write(reg: Reg, val: Word)
      requires Valid() && reg != Config0
      modifies this`trace, this`view
      ensures Valid() && view == Note(old(view), Wr(reg, val)) && Logs(Wr(reg, val))
    {
      Log(Wr(reg, val));
    }

    method Read(reg: Reg) returns (val: Word)
      requires Valid() && reg != Config0
      modifies this`trace, this`view, this`script
      ensures Valid() && view == Note(old(view), Rd(reg, val)) && Logs(Rd(reg, val))
      ensures reg != InfoStatus && reg != RespD1 && reg != IntStatus ==> view == old(view)
      ensures old(script) == [] ==> val == DONE && script == []
      ensures old(script) != [] ==> val == old(script)[0] && script == old(script)[1..]
    {
      if script == [] {
        val := DONE;
      } else {
        val, script := script[0], script[1..];
      }
      Log(Rd(reg, val));
    }

    method ReadConfig0() returns (val: Word)
      requires Valid()
      modifies this`trace, this`view
      ensures old(trace) <= trace
      ensures Valid() && val == Pack(bits, config0) && view == old(view)
    {
      val := Pack(bits, config0);
      Log(Rd(Config0, val));
    }

    /** wait_emmc_ctl_busy_status for idle. */
    method WaitIdle()
      requires Valid()
      modifies this`trace, this`view, this`script
      ensures old(trace) <= trace
      ensures Valid() && view == old(view).(running := false)
      ensures |script| <= |old(script)| && (old(script) != [] ==> |script| < |old(script)|)
    {
      var waitDone := false;
      while !waitDone
        invariant old(trace) <= trace
        invariant Valid() && view == (if waitDone then old(view).(running := false) else old(view))
        invariant |script| <= |old(script)| && (waitDone && old(script) != [] ==> |script| < |old(script)|)
        decreases |script|, !waitDone
      {
        waitDone := Poll();
      }
    }

    /** One read of the busy bit. */
    method Poll() returns (idle: bool)
      requires Valid()
      modifies this`trace, this`view, this`script
      ensures old(trace) <= trace
      ensures Valid() && view == (if idle then old(view).(running := false) else old(view))
      ensures if old(script) == [] then idle && script == [] else |script| < |old(script)|
    {
      var rdat := Read(InfoStatus);
      idle := rdat as int % 2 == 0;
    }

    method ReadRespTail() returns (d2: Word, d3: Word, d4: Word)
      requires Valid()
      modifies this`trace, this`view, this`script
      ensures old(trace) <= trace
      ensures |trace| == |old(trace)| + 3 && trace[|old(trace)|] == Rd(RespD2, d2)
      ensures trace[|old(trace)| + 1] == Rd(RespD3, d3) && trace[|old(trace)| + 2] == Rd(RespD4, d4)
      ensures Valid() && view == old(view) && |script| <= |old(script)|
    {
      d2 := Read(RespD2);
      d3 := Read(RespD3);
      d4 := Read(RespD4);
    }

    /** emmc_get_resp_data */
    method GetRespData()
      requires Valid()
      modifies this`trace, this`view, this`script, this`rspData
      ensures old(trace) <= trace && |trace| == |old(trace)| + 5 && Got(trace, rspData, |old(trace)|)
      ensures Valid() && view == Note(old(view), Rd(RespD1, rspData[1])) && |script| <= |old(script)|
    {
      var d0 := Read(RespD0);
      var d1 := Read(RespD1);
      var d2, d3, d4 := ReadRespTail();
      rspData := [d0, d1, d2, d3, d4];
    }

    /** emmc_check_error_status: success exactly when the status read had no bit above the lowest. */
    method CheckErrorStatus() returns (r: Status, sts: Word)
      requires Valid()
      modifies this`trace, this`view, this`script
      ensures old(trace) <= trace
      ensures Valid() && |script| <= |old(script)| && |trace| == |old(trace)| + 2
      ensures view == Note(Note(old(view), Rd(IntStatus, sts)), Wr(IntStatus, sts))
      ensures r == Success <==> sts < 2
    {
      sts := Read(IntStatus);
      Write(IntStatus, sts);
      r := if sts as int / 2 == 0 then Success else Failure;
    }

    // ---------------------------------------------------------------- commands

    /** Writes the registers a command runs under. */
    method Prepare(timeouts: Word, mem: Option<Word>, block: Word, arg: Word)
      requires Ready()
      modifies this`trace, this`view
      ensures old(trace) <= trace
      ensures Ready() && view.cur == old(view.cur) && view.past == old(view.past)
      ensures view.arg == arg && view.block == block && view.limits == timeouts
      ensures view.addr == if mem.Some? then mem.value else old(view.addr)
    {
      Write(Config1, timeouts);
      if mem.Some? { Write(SrcDst, mem.value); }
      Write(Ctrl0, block);
      Write(Ctrl1, arg);
    }

    /** Starts the command in the registers and waits for it. */
    method Start(code: nat)
      requires Ready() && code < 0x40
      modifies this`trace, this`view, this`script
      ensures old(trace) <= trace
      ensures Ready() && view.past == Issued(old(view))
      ensures view.cur == Cmd(code, old(view.arg), old(view.block), old(view.addr), old(view.limits), 0, 0)
      ensures !view.touched
      ensures view.arg == old(view.arg) && view.block == old(view.block) && view.addr == old(view.addr)
      ensures view.limits == old(view.limits)
      ensures |script| <= |old(script)| && (old(script) != [] ==> |script| < |old(script)|)
    {
      Write(Ctrl2, START + code as Word);
      WaitIdle();
    }

    /** The tail of most commands: the response is read, then the status read and cleared; `asked` is what the accesses
        had added up to when the status was read. */
    method Conclude() returns (r: Status, ghost sts: Word, ghost asked: View)
      requires Ready() && view.cur.Cmd?
      modifies this`trace, this`view, this`script, this`rspData
      ensures old(trace) <= trace
      ensures Ready() && |script| <= |old(script)|
      ensures asked == old(view).(cur := old(view.cur).(resp := rspData[1]))
      ensures |trace| >= 7 && Got(trace, rspData, |trace| - 7)
      ensures view == Note(Note(asked, Rd(IntStatus, sts)), Wr(IntStatus, sts))
      ensures r == Success <==> sts < 2
    {
      GetRespData();
      asked := view;
      ghost var log := trace;
      var sts' := 0;
      r, sts' := CheckErrorStatus();
      sts := sts';
      GotStays(log, trace, rspData, |log| - 5);
    }

    /** Any of the commands that share one shape. */
    method Issue(a: Api) returns (r: Status, ghost sts: Word, ghost asked: View)
      requires Ready()
      modifies this`trace, this`view, this`script, this`rspData, this`tgtAddr, this`blockSize
      ensures old(trace) <= trace
      ensures Ready() && |script| <= |old(script)| && view.past == Issued(old(view))
      ensures view.cur == Cmd(Code(a), Argument(a, old(tgtAddr)), Block(a, old(blockSize)),
                              if Memory(a).Some? then Memory(a).value else old(view.addr), Timeouts(a), rspData[1], sts)
      ensures view == Note(Note(asked, Rd(IntStatus, sts)), Wr(IntStatus, sts))
      ensures asked.cur == view.cur.(sts := 0) && !asked.touched && !asked.running
      ensures |trace| >= 7 && Got(trace, rspData, |trace| - 7)
      ensures r == Success <==> sts < 2
      ensures tgtAddr == if a.SetRelativeAddr? then a.addr else old(tgtAddr)
      ensures blockSize == if a.SetBlockLength? then a.len else old(blockSize)
    {
      Prepare(Timeouts(a), Memory(a), Block(a, blockSize), Argument(a, tgtAddr));
      Start(Code(a));
      if a.SetRelativeAddr? { tgtAddr := a.addr; }
      if a.SetBlockLength? { blockSize := a.len; }
      r, sts, asked := Conclude();
    }

    /** emmc_cmd_go_idle: no response is read, and success is unconditional. */
    method GoIdle() returns (r: Status)
      requires Ready()
      modifies this`trace, this`view, this`script
      ensures old(trace) <= trace
      ensures Ready() && |script| <= |old(script)| && r == Success
      ensures view.past == Issued(old(view)) && view.cur == Cmd(0, 0, 0, old(view.addr), 0, 0, 0)
    {
      Prepare(0, None, 0, 0);
      Start(0);
      Write(IntStatus, ALL_BITS);
      r := Success;
    }

    /**
     * emmc_cmd_send_op_cond: started again until a response without timeout says ready; `polled` is what the accesses
     * had added up to by then, before the response was read once more.
     */
    method SendOpCond() returns (r: Status, ghost polled: View)
      requires Ready()
      modifies this`trace, this`view, this`script, this`rspData
      ensures old(trace) <= trace
      ensures Ready() && |script| <= |old(script)|
      ensures Issued(old(view)) <= view.past && OnlySince(view, |Issued(old(view))|, 1, OP_COND_ARG)
      ensures forall k :: |Issued(old(view))| <= k < |view.past| ==> NotReady(view.past[k])
      ensures polled.cur.Cmd? && !NotReady(polled.cur) && view == Note(polled, Rd(RespD1, rspData[1]))
      ensures r == Success <==> view.cur.sts < 2
    {
      Prepare(0, None, 0, OP_COND_ARG);
      var cmdDone, detErr := false, false;
      while !cmdDone
        invariant old(trace) <= trace
        invariant Ready() && view.arg == OP_COND_ARG && view.block == 0 && view.limits == 0 && |script| <= |old(script)|
        invariant || (!cmdDone && Issued(view) == Issued(old(view)))
                  || (Issued(old(view)) <= view.past && OnlySince(view, |Issued(old(view))|, 1, OP_COND_ARG) &&
                      cmdDone != NotReady(view.cur))
        invariant forall k :: |Issued(old(view))| <= k < |view.past| ==> NotReady(view.past[k])
        invariant cmdDone ==> view.cur.Cmd? && (detErr <==> view.cur.sts >= 2)
        decreases |script|, !cmdDone
      {
        cmdDone, detErr := TryOpCond();
      }
      polled := view;
      GetRespData();
      r := if detErr then Failure else Success;
    }

    /** One round of that loop: it stops only on a response that says ready and no timeout. */
    method TryOpCond() returns (cmdDone: bool, detErr: bool)
      requires Ready() && view.arg == OP_COND_ARG && view.block == 0 && view.limits == 0
      modifies this`trace, this`view, this`script
      ensures old(trace) <= trace
      ensures Ready() && view.arg == old(view.arg) && view.block == 0 && view.limits == 0
      ensures view.past == Issued(old(view))
      ensures |script| <= |old(script)| && (|script| < |old(script)| || cmdDone)
      ensures var c := view.cur;
              && Is(c, 1, OP_COND_ARG) && (detErr <==> c.sts >= 2)
              && (cmdDone <==> !NotReady(c))
    {
      Start(1);
      ghost var resp, sts;
      cmdDone, detErr, resp, sts := AnswerOpCond();
    }

    /** The response and the status are read, the response again when nothing timed out, and the status cleared. */
    method AnswerOpCond() returns (cmdDone: bool, detErr: bool, ghost resp: Word, ghost sts: Word)
      requires Ready() && view.cur.Cmd?
      modifies this`trace, this`view, this`script
      ensures old(trace) <= trace
      ensures Ready() && |script| <= |old(script)| && (old(script) == [] ==> cmdDone)
      ensures view == old(view).(cur := old(view.cur).(resp := resp, sts := sts), touched := true)
      ensures (detErr <==> sts >= 2) && (cmdDone <==> !TimedOut(sts) && IsReady(resp))
    {
      var rdat := Read(RespD1);
      resp := rdat;
      rdat := Read(IntStatus);
      sts := rdat;
      cmdDone, detErr := !TimedOut(rdat), rdat >= 2;
      if cmdDone {
        rdat := Read(RespD1);
        resp, cmdDone := rdat, IsReady(rdat);
      }
      Write(IntStatus, ALL_BITS);
    }

    /** emmc_cmd_all_send_cid: started again until it does not time out. */
    method AllSendCid() returns (r: Status)
      requires Ready()
      modifies this`trace, this`view, this`script, this`rspData
      ensures old(trace) <= trace
      ensures Ready() && |script| <= |old(script)|
      ensures Issued(old(view)) <= view.past && OnlySince(view, |Issued(old(view))|, 2, 0)
      ensures forall k :: |Issued(old(view))| <= k < |view.past| ==> TimedOut(view.past[k].sts)
      ensures r == Success <==> view.cur.sts < 2
    {
      Write(IntStatus, ALL_BITS);
      Prepare(0, None, 0, 0);
      var cmdDone, detErr := false, false;
      while !cmdDone
        invariant old(trace) <= trace
        invariant Ready() && view.arg == 0 && view.block == 0 && view.limits == 0 && |script| <= |old(script)|
        invariant || (!cmdDone && Issued(view) == Issued(old(view)))
                  || (Issued(old(view)) <= view.past && OnlySince(view, |Issued(old(view))|, 2, 0) &&
                      cmdDone != TimedOut(view.cur.sts))
        invariant forall k :: |Issued(old(view))| <= k < |view.past| ==> view.past[k].Cmd? && TimedOut(view.past[k].sts)
        invariant cmdDone ==> view.cur.Cmd? && (detErr <==> view.cur.sts >= 2)
        decreases |script|, !cmdDone
      {
        cmdDone, detErr := TryCid();
      }
      GetRespData();
      r := if detErr then Failure else Success;
    }

    method TryCid() returns (cmdDone: bool, detErr: bool)
      requires Ready() && view.arg == 0 && view.block == 0 && view.limits == 0
      modifies this`trace, this`view, this`script
      ensures old(trace) <= trace
      ensures Ready() && view.arg == old(view.arg) && view.block == 0 && view.limits == 0
      ensures view.past == Issued(old(view))
      ensures |script| <= |old(script)| && (|script| < |old(script)| || cmdDone)
      ensures var c := view.cur;
              && Is(c, 2, 0) && (detErr <==> c.sts >= 2) && (cmdDone <==> !TimedOut(c.sts))
    {
      Start(2);
      var rdat := Read(IntStatus);
      cmdDone, detErr := !TimedOut(rdat), rdat >= 2;
      Write(IntStatus, ALL_BITS);
    }

    // ---------------------------------------------------------------- CONFIG0

    /** CONFIG0 rewritten once idle has been read. */
    method WriteConfig0(val: Word)
      requires Ready()
      modifies this`trace, this`view, this`config0, this`known
      ensures old(trace) <= trace
      ensures Ready() && config0 == Unpack(bits, val as nat) && known == {} && view == old(view)
    {
      Log(Wr(Config0, val));
      config0 := Unpack(bits, val as nat);
      known := {};
    }

    /** One field rewritten in what was read; the fields the handle mirrored stay mirrored. */
    method Reprogram(rdat: Word, v: nat, item: Item)
      requires Ready() && rdat == Pack(bits, config0)
      modifies this`trace, this`view, this`script, this`config0, this`known
      ensures old(trace) <= trace
      ensures Ready() && view == old(view) && known == old(known) - {item}
      ensures InRange(bits, item, v) ==> ItemOf(config0, item) == v
    {
      ghost var kept := known - {item};
      WaitIdle();
      PackUnpack(bits, config0);
      Rewritten(bits, rdat, v, item);
      WriteConfig0(SetWord(rdat, v, FieldOf(item)));
      known := kept;
    }

    /** set_emmc_ddr_mode: written only when different, recorded either way. */
    method SetDdrMode(v: nat)
      requires Ready()
      modifies this`trace, this`view, this`script, this`config0, this`known, this`ddrMode
      ensures old(trace) <= trace
      ensures Ready() && view == old(view) && ddrMode == v
      ensures known == if InRange(bits, DdrMode, v) then old(known) + {DdrMode} else old(known) - {DdrMode}
    {
      var rdat := ReadConfig0();
      PackGet(bits, config0);
      if v != Get(rdat as nat, DDR) {
        Reprogram(rdat, v, DdrMode);
      }
      ddrMode := v;
      known := if InRange(bits, DdrMode, v) then known + {DdrMode} else known - {DdrMode};
    }

    /** set_emmc_io_width */
    method SetIoWidth(v: nat)
      requires Ready()
      modifies this`trace, this`view, this`script, this`config0, this`known, this`ioWidth
      ensures old(trace) <= trace
      ensures Ready() && view == old(view) && ioWidth == v
      ensures known == if InRange(bits, IoWidth, v) then old(known) + {IoWidth} else old(known) - {IoWidth}
    {
      var rdat := ReadConfig0();
      PackGet(bits, config0);
      if v != Get(rdat as nat, WIDTH) {
        Reprogram(rdat, v, IoWidth);
      }
      ioWidth := v;
      known := if InRange(bits, IoWidth, v) then known + {IoWidth} else known - {IoWidth};
    }

    method NewRate(f: nat) returns (newRate: nat)
      requires 2 * f % ClockRate.WRAP != 0
      ensures newRate == ClockRate.Rate32(sysClkFreqKhz, f)
    {
      var twice := 2 * f % ClockRate.WRAP;
      newRate := (sysClkFreqKhz + twice + ClockRate.WRAP - 1) % ClockRate.WRAP / twice;
      if f >= sysClkFreqKhz { newRate := 0; }
    }

    /** emmc_sck_freq_khz from the rate. */
    method RecordFreq()
      modifies this`sckFreqKhz
      ensures sckFreqKhz == ClockRate.Recorded(sysClkFreqKhz, sckRate)
    {
      sckFreqKhz := if sckRate == 0 then sysClkFreqKhz else sysClkFreqKhz / sckRate / 2;
    }

    /** set_emmc_clock_freq_khz */
    method SetClockFreqKhz(f: nat)
      requires Ready() && 2 * f % ClockRate.WRAP != 0
      modifies this`trace, this`view, this`script, this`config0, this`known, this`sckRate, this`sckFreqKhz
      ensures old(trace) <= trace
      ensures Ready() && view == old(view)
      ensures sckRate == ClockRate.Rate32(sysClkFreqKhz, f)
      ensures sckFreqKhz == ClockRate.Recorded(sysClkFreqKhz, sckRate)
      ensures known == if InRange(bits, SckRate, sckRate) then old(known) + {SckRate} else old(known) - {SckRate}
    {
      var newRate := NewRate(f);
      SetRate(newRate);
      RecordFreq();
    }

    method SetRate(newRate: nat)
      requires Ready()
      modifies this`trace, this`view, this`script, this`config0, this`known, this`sckRate
      ensures old(trace) <= trace
      ensures Ready() && view == old(view) && sckRate == newRate
      ensures known == if InRange(bits, SckRate, newRate) then old(known) + {SckRate} else old(known) - {SckRate}
    {
      var rdat := ReadConfig0();
      PackGet(bits, config0);
      if newRate != Get(rdat as nat, RATE) {
        Reprogram(rdat, newRate, SckRate);
      }
      sckRate := newRate;
      known := if InRange(bits, SckRate, newRate) then known + {SckRate} else known - {SckRate};
    }

    /** The four fields rewritten one after another, then stored once. */
    method ReprogramAll(rdat: Word, v: Settings)
      requires Ready() && rdat == Pack(bits, config0)
      modifies this`trace, this`view, this`script, this`config0, this`known
      ensures old(trace) <= trace
      ensures Ready() && view == old(view) && known == {}
      ensures Reaches(bits, v, config0)
    {
      WaitIdle();
      var w1 := SetWord(rdat, v.rate, RATE);
      var w2 := SetWord(w1, v.ddr, DDR);
      var w3 := SetWord(w2, v.width, WIDTH);
      Rewritten(bits, rdat, v.rate, SckRate);
      Rewritten(bits, w1, v.ddr, DdrMode);
      Rewritten(bits, w2, v.width, IoWidth);
      Rewritten(bits, w3, v.drive, IoDrive);
      WriteConfig0(SetWord(w3, v.drive, DRIVE));
    }

    /** set_emmc_clk_io_config: all four at once, written only when one differs. */
    method SetClkIoConfig(f: nat, ddr: nat, width: nat, drive: nat)
      requires Ready() && 2 * f % ClockRate.WRAP != 0
      modifies this`trace, this`view, this`script, this`config0, this`known
      ensures old(trace) <= trace
      modifies this`sckRate, this`ddrMode, this`ioWidth, this`ioDrive, this`sckFreqKhz
      ensures Ready() && view == old(view)
      ensures sckRate == ClockRate.Rate32(sysClkFreqKhz, f) && ddrMode == ddr && ioWidth == width && ioDrive == drive
      ensures sckFreqKhz == ClockRate.Recorded(sysClkFreqKhz, sckRate)
      ensures known == InRangeItems(bits, Settings(sckRate, ddr, width, drive))
    {
      var newRate := NewRate(f);
      SetAll(Settings(newRate, ddr, width, drive));
      RecordFreq();
    }

    method SetAll(v: Settings)
      requires Ready()
      modifies this`trace, this`view, this`script, this`config0, this`known
      ensures old(trace) <= trace
      modifies this`sckRate, this`ddrMode, this`ioWidth, this`ioDrive
      ensures Ready() && view == old(view)
      ensures sckRate == v.rate && ddrMode == v.ddr && ioWidth == v.width && ioDrive == v.drive
      ensures known == InRangeItems(bits, v)
    {
      Reach(v);
      sckRate, ddrMode, ioWidth, ioDrive := v.rate, v.ddr, v.width, v.drive;
      known := InRangeItems(bits, v);
    }

    method Reach(v: Settings)
      requires Ready()
      modifies this`trace, this`view, this`script, this`config0, this`known
      ensures old(trace) <= trace
      ensures Ready() && view == old(view) && known == {} && Reaches(bits, v, config0)
    {
      var rdat := ReadConfig0();
      PackGet(bits, config0);
      known := {};
      if Differs(rdat, v) { ReprogramAll(rdat, v); }
    }

    // ---------------------------------------------------------------- every call

    /** A handle, and a controller that has just come out of reset. */
    constructor (bits: Bits, baseAddr: Word, sysClkFreqKhz: nat, rate: nat, config0: Config, script: seq<Word>)
      requires Held(bits, config0)
      ensures Ready() && view == FRESH && known == {}
      ensures this.bits == bits && this.baseAddr == baseAddr && this.script == script
    {
      this.bits, this.baseAddr := bits, baseAddr;
      this.sysClkFreqKhz, sckRate := sysClkFreqKhz, rate;
      sckFreqKhz, ddrMode, ioWidth, ioDrive := 0, 0, 0, 0;
      tgtAddr, blockSize, rspData := 0, 512, [0, 0, 0, 0, 0];
      this.config0, this.script := config0, script;
      trace, view, known := [], FRESH, {};
    }

    /** The handle's rate goes into CONFIG0. */
    method LoadRate()
      requires Ready()
      modifies this`trace, this`view, this`config0, this`known
      ensures old(trace) <= trace
      ensures Ready() && view == old(view)
      ensures InRange(bits, SckRate, sckRate) ==> known == old(known) + {SckRate}
    {
      ghost var kept := known - {SckRate};
      var rdat := ReadConfig0();
      PackUnpack(bits, config0);
      Rewritten(bits, rdat, sckRate, SckRate);
      WriteConfig0(SetWord(rdat, sckRate, RATE));
      known := if InRange(bits, SckRate, sckRate) then kept + {SckRate} else kept;
    }

    /** emmc_ctl_init */
    method Init(interruptEnable: Word) returns (r: Status)
      requires Ready()
      modifies this`trace, this`view, this`config0, this`known, this`blockSize, this`tgtAddr
      ensures old(trace) <= trace
      ensures Ready() && Issued(view) == Issued(old(view))
      ensures r == Success <==> baseAddr != 0
      ensures r == Success ==> blockSize == 512 && tgtAddr == 0
      ensures r == Success && InRange(bits, SckRate, sckRate) ==> known == old(known) + {SckRate}
    {
      if baseAddr == 0 { return Failure; }
      Write(SoftReset, 3);
      LoadRate();
      Enable(interruptEnable);
      blockSize, tgtAddr := 512, 0;
      r := Success;
    }

    /** The rest of the register writes. */
    method Enable(interruptEnable: Word)
      requires Ready()
      modifies this`trace, this`view
      ensures old(trace) <= trace
      ensures Ready() && Issued(view) == Issued(old(view))
    {
      Write(Config1, 0);
      Write(IntEnable, interruptEnable);
      Write(SoftReset, 0);
    }

    /** One call of the interface; without a base address every one of them fails at once. */
    method Perform(call: Call) returns (r: Status)
      requires Ready() && InDomain(call)
      modifies this
      ensures old(trace) <= trace
      ensures Ready() && sysClkFreqKhz == old(sysClkFreqKhz)
      ensures baseAddr == 0 ==> r == Failure && view == old(view)
    {
      if baseAddr == 0 { return Failure; }
      r := Success;
      match call
      case Plain(api) => ghost var sts, asked; r, sts, asked := Issue(api);
      case GoIdle => r := GoIdle();
      case SendOpCond => ghost var polled; r, polled := SendOpCond();
      case AllSendCid => r := AllSendCid();
      case CheckError => var sts; r, sts := CheckErrorStatus();
      case GetResponse => GetRespData();
      case ClockFreq(f) => SetClockFreqKhz(f);
      case Ddr(v) => SetDdrMode(v);
      case Width(v) => SetIoWidth(v);
      case ClkIo(f, ddr, width, drive) => SetClkIoConfig(f, ddr, width, drive);
    }
  }

  /** Any sequence of calls leaves every command it started undisturbed until idle was read after it. */
  method Session(d: Driver, calls: seq<Call>) returns (results: seq<Status>)
    requires d.Ready() && forall c :: c in calls ==> InDomain(c)
    modifies d
    ensures d.Ready() && |results| == |calls| && old(d.trace) <= d.trace
  {
    results := [];
    for n := 0 to |calls|
      invariant old(d.trace) <= d.trace
      invariant d.Ready() && |results| == n && d.sysClkFreqKhz == old(d.sysClkFreqKhz)
    {
      assert calls[n] in calls;
      var r := d.Perform(calls[n]);
      results := results + [r];
    }
  }
}
