/** The payload half of the command processor: the wdt_cs state machine, its counters and wait flags. */
module Payload {
  import opened Words
  import opened Geometry

  datatype State = Idle | Start | Data | Crc | Dummy | Rsp | Wait

  datatype Regs = Regs(
    cs: State, cntr: nat, last: bool,
    valid: bool, data: Word, wr1rd0: bool, dcEn: bool, dcNum: nat, lastByte: nat, crcEn: bool, ioWidth: nat,
    xferDone: bool, checkBusy: bool, rdNotStarted: bool, lineFree: bool,
    waitWr: bool, waitRd: bool, blkCntr: nat, allDone: bool)

  /** One clock's inputs: SERDES, bus controller, and what the command half shows. */
  datatype Ins = Ins(
    ready: bool, rxValid: bool, rxEnd: bool, datLine: bool, clkVld: bool,
    memAvail: bool, memRdat: Word, memFree: bool, reqDone: bool,
    cmdIdle: bool, cmdRsp: bool, cmdWait: bool, kick: bool, restart: bool,
    writeCmd: bool, readCmd: bool, busTestWr: bool)

  /** What the SERDES is handed by one transmit handshake. */
  datatype TxBeat = DataBeat(word: Word) | CrcBeat(bytes: nat) | ShortBeat(bytes: nat)

  predicate Handshake(s: Regs, i: Ins) { s.valid && i.ready }

  /** cmd_proc_mem_rden */
  predicate MemRden(s: Regs, i: Ins) {
    s.waitWr && s.valid && i.ready && !s.last && (s.cs == Start || s.cs == Data)
  }

  /** cmd_proc_mem_wren */
  predicate MemWren(s: Regs, i: Ins) { s.waitRd && i.rxValid && !i.rxEnd }

  /** A handshake that drives bits onto the data lines, as opposed to reading or idling. */
  predicate Transmits(s: Regs, i: Ins) { Handshake(s, i) && s.wr1rd0 && !s.dcEn }

  function Beat(s: Regs): TxBeat {
    if s.crcEn then CrcBeat(s.lastByte + 1)
    else if s.lastByte == 3 then DataBeat(s.data)
    else ShortBeat(s.lastByte + 1)
  }

  /** What the SERDES is asked to clock in by one receive handshake. */
  datatype AskBeat = Ask(bytes: nat, crc: bool)

  /** A handshake that reads the data lines. */
  predicate Asks(s: Regs, i: Ins) { Handshake(s, i) && !s.wr1rd0 && !s.dcEn }

  function AskOf(s: Regs): AskBeat { Ask(s.lastByte + 1, s.crcEn) }

  function Minus4(t: Tables, n: nat): nat {
    if 4 <= n then n - 4 else if 4 <= n + t.cntrMod then n + t.cntrMod - 4 else 0
  }

  /** The start token: all selected lanes low. */
  function StartToken(ioWidth: nat): Word {
    if ioWidth == 3 then 0xFFFF_FF00 else if ioWidth == 2 then 0xFFFF_FF0F else 0xFFFF_FF7F
  }

  /** A block may begin: a read once there is room, a write once a whole block is in the FIFO. */
  predicate Begins(s: Regs, i: Ins) {
    && s.cs == Idle && !i.cmdIdle
    && if s.waitRd then (i.cmdRsp || i.cmdWait) && i.memFree
       else s.waitWr && Handshake(s, i) && i.memAvail
  }

  function StateNext(s: Regs, i: Ins): State {
    if i.restart then Idle else
      match s.cs
      case Idle => if Begins(s, i) then Start else Idle
      case Start => if Handshake(s, i) then Data else Start
      case Data => if Handshake(s, i) && s.last then Crc else Data
      case Crc => if Handshake(s, i) then Dummy else Crc
      case Dummy =>
        if Handshake(s, i) && s.dcNum % 2 == 1 then (if s.waitRd then Wait else Rsp) else Dummy
      case Rsp => if (s.checkBusy && s.lineFree) || i.busTestWr then Wait else Rsp
      case Wait => if !i.clkVld && (!s.allDone || i.reqDone) then Idle else Wait
  }

  function ValidNext(s: Regs, i: Ins): bool {
    if s.cs == Idle then
      if i.cmdIdle then false
      else if s.waitRd then Begins(s, i) || s.valid
      else if s.waitWr then i.kick || Handshake(s, i) || s.valid
      else s.valid
    else if s.cs == Dummy && Handshake(s, i) && s.dcNum % 2 == 1 && s.waitRd then false
    else s.valid
  }

  function DataNext(s: Regs, i: Ins): Word {
    match s.cs
    case Idle => if Begins(s, i) && !s.waitRd then StartToken(s.ioWidth) else ALL_ONES
    case Crc => ALL_ONES
    case Dummy => ALL_ONES
    case Rsp => s.data
    case Wait => s.data
    case _ => if Handshake(s, i) && s.waitWr then i.memRdat else s.data
  }

  /** The end of the transfer has been received, now or before. */
  predicate EndSeen(s: Regs, i: Ins) { s.xferDone || (i.rxValid && i.rxEnd) }

  /** Nothing more is to be received before the line may be judged. */
  predicate Answered(s: Regs, i: Ins) { s.checkBusy || (s.xferDone && (!s.waitWr || i.rxValid)) }

  predicate WaitWrNext(s: Regs, i: Ins) {
    !i.restart && if s.waitWr then !(s.allDone && s.cs == Wait) else i.writeCmd && i.cmdRsp
  }

  predicate WaitRdNext(s: Regs, i: Ins) {
    !i.restart && if s.waitRd then !(i.reqDone && s.cs == Wait) else i.readCmd && i.cmdRsp
  }

  function BlkCntrNext(s: Regs, i: Ins): nat {
    if s.waitWr || s.waitRd then s.blkCntr + (if s.last && i.ready then 1 else 0) else 0
  }

  /** One clock of the payload half. */
  function Next(t: Tables, s: Regs, i: Ins): Regs {
    var hs := Handshake(s, i);
    var odd := s.dcNum % 2 == 1;
    Regs(
      cs := StateNext(s, i),
      cntr := if s.cs == Idle then t.wdtInit
              else if hs && (s.cs == Start || s.cs == Data) then Minus4(t, s.cntr) else s.cntr,
      last := if s.cs == Idle then false
              else if hs && s.cs == Data then s.cntr < 8 && !s.last else s.last,
      valid := ValidNext(s, i),
      data := DataNext(s, i),
      wr1rd0 := if s.cs == Idle || (s.cs == Crc && hs) then false
                else if s.cs == Start && hs then s.waitWr else s.wr1rd0,
      dcEn := if s.cs == Idle || (hs && (s.cs == Crc || s.cs == Rsp)) then true
              else if hs && (s.cs == Start || (s.cs == Dummy && odd)) then false else s.dcEn,
      dcNum := if s.cs == Idle then 0 else if s.cs == Dummy && hs then (if odd then 0 else 1) else s.dcNum,
      lastByte := if s.cs == Idle || s.cs == Dummy || (s.cs == Crc && hs) then 0
                  else if hs && s.cs == Start then 3
                  else if hs && s.cs == Data then (if s.last then 1 else 3) else s.lastByte,
      crcEn := if s.cs == Idle || (s.cs == Crc && hs) then false
               else if s.cs == Data && hs then s.last else s.crcEn,
      ioWidth := if s.cs == Idle || (s.cs == Rsp && hs) then t.ioWidth
                 else if s.cs == Dummy && hs then 0 else s.ioWidth,
      xferDone := s.cs != Idle && EndSeen(s, i),
      checkBusy := s.cs != Idle && Answered(s, i),
      rdNotStarted := if s.cs == Start then s.waitRd
                      else s.cs == Data && s.rdNotStarted && s.lineFree && !i.rxValid,
      lineFree := i.datLine,
      waitWr := WaitWrNext(s, i),
      waitRd := WaitRdNext(s, i),
      blkCntr := BlkCntrNext(s, i),
      allDone := s.blkCntr == t.numBlocks)
  }

  // ---------------------------------------------------------------- the clocked blocks

  /** The registers of the block that keeps the wait flags and counts blocks. */
  datatype Flags = Flags(lineFree: bool, waitWr: bool, waitRd: bool, blkCntr: nat, allDone: bool)

  function FlagsOf(s: Regs): Flags { Flags(s.lineFree, s.waitWr, s.waitRd, s.blkCntr, s.allDone) }

  /** The registers of the state machine's block that are assigned case by case. */
  datatype Cased = Cased(
    cs: State, cntr: nat, last: bool, valid: bool, data: Word, wr1rd0: bool, dcEn: bool, dcNum: nat, lastByte: nat,
    crcEn: bool, ioWidth: nat, rdNotStarted: bool)

  function CasedOf(s: Regs): Cased {
    Cased(s.cs, s.cntr, s.last, s.valid, s.data, s.wr1rd0, s.dcEn, s.dcNum, s.lastByte, s.crcEn, s.ioWidth,
          s.rdNotStarted)
  }

  /** Later assignments override earlier ones, and every read is from before the edge. */
  method EdgeFlags(t: Tables, s: Regs, i: Ins) returns (f: Flags)
    ensures f == FlagsOf(Next(t, s, i))
  {
    var blkCntr, waitWr, waitRd := 0, false, false;
    if s.waitWr || s.waitRd {
      blkCntr := s.blkCntr;
      if s.last && i.ready { blkCntr := blkCntr + 1; }
    }
    if s.waitWr {
      waitWr := !(s.allDone && s.cs == Wait);
    } else if i.cmdRsp {
      waitWr := i.writeCmd;
    }
    if s.waitRd {
      waitRd := !(i.reqDone && s.cs == Wait);
    } else if i.cmdRsp {
      waitRd := i.readCmd;
    }
    if i.restart { waitWr, waitRd := false, false; }
    f := Flags(i.datLine, waitWr, waitRd, blkCntr, s.blkCntr == t.numBlocks);
  }

  /** The two registers assigned before the case distinction, which only the idle state overrides. */
  method EdgeAnswer(t: Tables, s: Regs, i: Ins) returns (xferDone: bool, checkBusy: bool)
    ensures xferDone == Next(t, s, i).xferDone && checkBusy == Next(t, s, i).checkBusy
  {
    xferDone, checkBusy := s.xferDone, s.checkBusy;
    if i.rxValid && i.rxEnd { xferDone := true; }
    if s.xferDone && (!s.waitWr || i.rxValid) { checkBusy := true; }
    if s.cs == Idle { xferDone, checkBusy := false, false; }
  }

  /** The start token has been taken: the block's first word goes out. */
  method EdgeStart(t: Tables, s: Regs, i: Ins) returns (n: Cased)
    requires s.cs == Start
    ensures n == CasedOf(Next(t, s, i))
  {
    var cs, cntr, data, wr1rd0, dcEn, lastByte := s.cs, s.cntr, s.data, s.wr1rd0, s.dcEn, s.lastByte;
    if s.valid && i.ready {
      cs, wr1rd0, dcEn, lastByte, cntr := Data, s.waitWr, false, 3, Minus4(t, s.cntr);
      if s.waitWr { data := i.memRdat; }
    }
    if i.restart { cs := Idle; }
    n := Cased(cs, cntr, s.last, s.valid, data, wr1rd0, dcEn, s.dcNum, lastByte, s.crcEn, s.ioWidth, s.waitRd);
  }

  /** A word per handshake; the one that finds the counter below eight is followed by the last. */
  method EdgeData(t: Tables, s: Regs, i: Ins) returns (n: Cased)
    requires s.cs == Data
    ensures n == CasedOf(Next(t, s, i))
  {
    var cs, cntr, last, data, lastByte, crcEn := s.cs, s.cntr, s.last, s.data, s.lastByte, s.crcEn;
    if s.valid && i.ready {
      cs, last, cntr := if s.last then Crc else Data, s.cntr < 8 && !s.last, Minus4(t, s.cntr);
      lastByte, crcEn := if s.last then 1 else 3, s.last;
      if s.waitWr { data := i.memRdat; }
    }
    if i.restart { cs := Idle; }
    n := Cased(cs, cntr, last, s.valid, data, s.wr1rd0, s.dcEn, s.dcNum, lastByte, crcEn, s.ioWidth,
               s.rdNotStarted && s.lineFree && !i.rxValid);
  }

  /** The CRC slot. */
  method EdgeCrc(t: Tables, s: Regs, i: Ins) returns (n: Cased)
    requires s.cs == Crc
    ensures n == CasedOf(Next(t, s, i))
  {
    var cs, wr1rd0, dcEn, lastByte, crcEn := s.cs, s.wr1rd0, s.dcEn, s.lastByte, s.crcEn;
    if s.valid && i.ready {
      cs, lastByte, crcEn, wr1rd0, dcEn := Dummy, 0, false, false, true;
    }
    if i.restart { cs := Idle; }
    n := Cased(cs, s.cntr, s.last, s.valid, ALL_ONES, wr1rd0, dcEn, s.dcNum, lastByte, crcEn, s.ioWidth, false);
  }

  /** Two dummy clocks, then the card's answer to a write or the end of a read block. */
  method EdgeDummy(t: Tables, s: Regs, i: Ins) returns (n: Cased)
    requires s.cs == Dummy
    ensures n == CasedOf(Next(t, s, i))
  {
    var cs, valid, dcEn, dcNum, ioWidth := s.cs, s.valid, s.dcEn, s.dcNum, s.ioWidth;
    if s.valid && i.ready {
      ioWidth, dcNum := 0, 1;
      if s.dcNum % 2 == 1 {
        cs, dcEn, dcNum := if s.waitRd then Wait else Rsp, false, 0;
        if s.waitRd { valid := false; }
      }
    }
    if i.restart { cs := Idle; }
    n := Cased(cs, s.cntr, s.last, valid, ALL_ONES, s.wr1rd0, dcEn, dcNum, 0, s.crcEn, ioWidth, false);
  }

  /** Waiting for the card to answer a write and release the line. */
  method EdgeRsp(t: Tables, s: Regs, i: Ins) returns (n: Cased)
    requires s.cs == Rsp
    ensures n == CasedOf(Next(t, s, i))
  {
    var cs, dcEn, ioWidth := s.cs, s.dcEn, s.ioWidth;
    if s.valid && i.ready { ioWidth, dcEn := t.ioWidth, true; }
    if (s.checkBusy && s.lineFree) || i.busTestWr { cs := Wait; }
    if i.restart { cs := Idle; }
    n := Cased(cs, s.cntr, s.last, s.valid, s.data, s.wr1rd0, dcEn, s.dcNum, s.lastByte, s.crcEn, ioWidth, false);
  }

  /** Waiting for the data clock to stop and, after the last block, for the bus. */
  method EdgeWait(t: Tables, s: Regs, i: Ins) returns (n: Cased)
    requires s.cs == Wait
    ensures n == CasedOf(Next(t, s, i))
  {
    var cs := s.cs;
    if !i.clkVld && (!s.allDone || i.reqDone) { cs := Idle; }
    if i.restart { cs := Idle; }
    n := Cased(cs, s.cntr, s.last, s.valid, s.data, s.wr1rd0, s.dcEn, s.dcNum, s.lastByte, s.crcEn, s.ioWidth, false);
  }

  /** A block begins once its direction allows. */
  method EdgeIdle(t: Tables, s: Regs, i: Ins) returns (n: Cased)
    requires s.cs == Idle
    ensures n == CasedOf(Next(t, s, i))
  {
    var cs, valid, data := s.cs, s.valid, ALL_ONES;
    if i.cmdIdle {
      valid := false;
    } else if s.waitRd {
      if (i.cmdRsp || i.cmdWait) && i.memFree { cs, valid := Start, true; }
    } else if s.waitWr {
      valid := i.kick || (s.valid && i.ready) || s.valid;
      if s.valid && i.ready && i.memAvail { cs, data := Start, StartToken(s.ioWidth); }
    }
    if i.restart { cs := Idle; }
    n := Cased(cs, t.wdtInit, false, valid, data, false, true, 0, 0, false, t.ioWidth, false);
  }

  method EdgeCase(t: Tables, s: Regs, i: Ins) returns (n: Cased)
    ensures n == CasedOf(Next(t, s, i))
  {
    match s.cs
    case Idle => n := EdgeIdle(t, s, i);
    case Start => n := EdgeStart(t, s, i);
    case Data => n := EdgeData(t, s, i);
    case Crc => n := EdgeCrc(t, s, i);
    case Dummy => n := EdgeDummy(t, s, i);
    case Rsp => n := EdgeRsp(t, s, i);
    case Wait => n := EdgeWait(t, s, i);
  }

  /** One clock edge of both blocks. */
  method Edge(t: Tables, s: Regs, i: Ins) returns (n: Regs)
    ensures n == Next(t, s, i)
  {
    var f := EdgeFlags(t, s, i);
    var xferDone, checkBusy := EdgeAnswer(t, s, i);
    var c := EdgeCase(t, s, i);
    n := Regs(c.cs, c.cntr, c.last, c.valid, c.data, c.wr1rd0, c.dcEn, c.dcNum, c.lastByte, c.crcEn, c.ioWidth,
              xferDone, checkBusy, c.rdNotStarted, f.lineFree, f.waitWr, f.waitRd, f.blkCntr, f.allDone);
  }
}
