/** The whole command processor: command and response state machines, timers, recovery and capture,
    wired to the payload half. */
module CommandProc {
  import opened Words
  import opened Geometry
  import P = Payload

  datatype CmdState = Idle | Boot | Start | Arg | Crc | Dummy | Rsp | Wait
  datatype RspState = RspIdle | RspStart | RspArg | RspCrc | RspWait
  datatype RecState = RecIdle | RecWait0 | RecWait1 | RecWait2 | RecEnd

  datatype Cmd = Cmd(
    cs: CmdState, detStart: bool, detDone: bool, cntr: nat, valid: bool, wr1rd0: bool,
    lastByte: nat, data: Word, dcEn: bool, dcNum: nat, crcEn: bool)

  datatype Response = Response(cs: RspState, cntr: nat, cmdDone: bool, clkVldQ: bool)

  datatype Timer = Timer(en: bool, mask: bool, tmr0: nat, hit: bool, tmr1: nat, rspGt: bool, datGt: bool)

  datatype Recovery = Recovery(cs: RecState, cmdRestart: bool, datRestart: bool)

  datatype Capture = Capture(ptr: nat, b0: nat, d0: Word, d1: Word, d2: Word, d3: Word)

  datatype Regs = Regs(c: Cmd, r: Response, m: Timer, k: Recovery, s: Capture, p: P.Regs)

  /** One clock's inputs, grouped by where they come from. */
  datatype CsrIns = CsrIns(
    t: Tables, idx: nat, arg: Word, rspTyp: nat, boot: bool, start: bool,
    cmdTimeout: nat, datTimeout: nat, tmrMod: nat)
  datatype CmdIns = CmdIns(ready: bool, rxValid: bool, rxData: Word, clkVld: bool, dcEn: bool, ckp: bool)
  datatype PldIns = PldIns(ready: bool, rxValid: bool, rxEnd: bool, datLine: bool, clkVld: bool)
  datatype BusIns = BusIns(memAvail: bool, memRdat: Word, memFree: bool, reqDone: bool)
  datatype Ins = Ins(csr: CsrIns, cmd: CmdIns, pld: PldIns, bus: BusIns)

  const R0 := 0
  const R2 := 2

  predicate WriteIndex(idx: nat, arg: Word) {
    idx in {19, 24, 25, 26, 27, 49, 42, 47, 54} || (idx == 56 && arg as int % 2 == 1)
  }

  predicate ReadIndex(idx: nat, arg: Word) {
    idx in {8, 14, 17, 18, 21, 30, 31, 46, 53} || (idx == 56 && arg as int % 2 == 0)
  }

  /** Byte k of a word, least significant first. */
  function Byte(w: Word, k: nat): (b: nat)
    requires k < 4
    ensures b < 0x100
  {
    match k
    case 0 => w as int % 0x100
    case 1 => w as int / 0x100 % 0x100
    case 2 => w as int / 0x1_0000 % 0x100
    case _ => w as int / 0x100_0000
  }

  function FromBytes(b0: nat, b1: nat, b2: nat, b3: nat): Word
    requires b0 < 0x100 && b1 < 0x100 && b2 < 0x100 && b3 < 0x100
  {
    (b0 + 0x100 * b1 + 0x1_0000 * b2 + 0x100_0000 * b3) as Word
  }

  function Swap(w: Word): Word { FromBytes(Byte(w, 3), Byte(w, 2), Byte(w, 1), Byte(w, 0)) }

  predicate CmdHandshake(c: Cmd, i: CmdIns) { c.valid && i.ready }

  function CmdStateNext(s: Regs, i: Ins): CmdState {
    var hs := CmdHandshake(s.c, i.cmd);
    if s.k.cmdRestart then Idle else
      match s.c.cs
      case Idle => if s.c.detStart then (if i.csr.boot then Boot else Start) else Idle
      case Boot => Boot
      case Start => if hs then Arg else Start
      case Arg => if hs && s.c.cntr % 4 == 0 then Crc else Arg
      case Crc => if hs then Dummy else Crc
      case Dummy => if hs then (if s.c.cntr != 0 then Rsp else Wait) else Dummy
      case Rsp => if hs && s.r.cs == RspCrc then Wait else Rsp
      case Wait => if s.c.detDone then Idle else Wait
  }

  /** cmd_cntr: response beats to clock in, preset in the CRC state. */
  function CmdCntrNext(s: Regs, i: Ins): nat {
    var hs := CmdHandshake(s.c, i.cmd);
    match s.c.cs
    case Idle => 0
    case Start => s.c.cntr - s.c.cntr % 4
    case Arg => if hs then s.c.cntr - s.c.cntr % 4 else s.c.cntr
    case Crc => if i.csr.rspTyp == R0 then 0 else if i.csr.rspTyp == R2 then 5 else 2
    case Rsp => if hs && s.c.cntr > 0 then s.c.cntr - 1 else s.c.cntr
    case _ => s.c.cntr
  }

  function CmdDataNext(s: Regs, i: Ins): Word {
    var hs := CmdHandshake(s.c, i.cmd);
    match s.c.cs
    case Boot => 0
    case Start => if hs then Swap(i.csr.arg) else (0x40 + i.csr.idx % 0x40) as Word
    case Arg => if hs then ALL_ONES else s.c.data
    case _ => ALL_ONES
  }

  function CmdLastByteNext(s: Regs, i: Ins): nat {
    var hs := CmdHandshake(s.c, i.cmd);
    match s.c.cs
    case Boot => s.c.lastByte
    case Start => if hs then 3 else s.c.lastByte
    case Arg => if hs then 0 else s.c.lastByte
    case Rsp =>
      if !hs then s.c.lastByte
      else if s.c.cntr < 2 then 0
      else if i.csr.rspTyp == R2 && s.c.cntr == 2 then 2 else 3
    case _ => 0
  }

  function CmdNext(s: Regs, i: Ins): Cmd {
    var hs := CmdHandshake(s.c, i.cmd);
    var waiting := s.p.waitWr || s.p.waitRd;
    Cmd(
      cs := CmdStateNext(s, i),
      detStart := !s.k.cmdRestart &&
                  (match s.c.cs
                   case Idle => s.c.detStart || i.csr.start
                   case Wait => s.c.detStart && !s.c.detDone
                   case _ => s.c.detStart),
      detDone := s.k.cmdRestart ||
                 (match s.c.cs
                  case Idle => false
                  case Wait => !(i.cmd.clkVld || i.cmd.dcEn || waiting)
                  case _ => s.c.detDone),
      cntr := CmdCntrNext(s, i),
      valid := match s.c.cs case Idle => false case Wait => (if hs then waiting else s.c.valid) case _ => true,
      wr1rd0 := match s.c.cs
                case Idle => false
                case Boot => true
                case Start => true
                case Crc => s.c.wr1rd0 && !hs
                case _ => s.c.wr1rd0,
      lastByte := CmdLastByteNext(s, i),
      data := CmdDataNext(s, i),
      dcEn := match s.c.cs
              case Idle => false
              case Crc => s.c.dcEn || hs
              case Dummy => (if hs then s.c.cntr == 0 else s.c.dcEn)
              case Rsp => (if hs then s.c.cntr == 0 else s.c.dcEn)
              case _ => s.c.dcEn,
      dcNum := match s.c.cs
               case Idle => 0
               case Crc => (if hs then 1 else s.c.dcNum)
               case Dummy => (if hs then (if s.c.cntr != 0 then 0 else 7) else s.c.dcNum)
               case Rsp => (if hs then 7 else s.c.dcNum)
               case _ => s.c.dcNum,
      crcEn := match s.c.cs
               case Idle => false
               case Arg => s.c.crcEn || hs
               case Crc => s.c.crcEn && !hs
               case Rsp => (if hs then s.c.cntr == 1 else s.c.crcEn)
               case _ => s.c.crcEn)
  }

  function RspStateNext(s: Regs, i: Ins): RspState {
    if s.k.cmdRestart then RspIdle else
      match s.r.cs
      case RspIdle => if s.r.cmdDone && i.csr.rspTyp != R0 then RspStart else RspIdle
      case RspStart => if i.cmd.rxValid && s.r.clkVldQ then RspArg else RspStart
      case RspArg => if i.cmd.rxValid && s.r.cntr < 2 then RspCrc else RspArg
      case RspCrc => if i.cmd.rxValid then RspWait else RspCrc
      case RspWait => if !i.cmd.clkVld then RspIdle else RspWait
  }

  function RspNext(s: Regs, i: Ins): Response {
    Response(
      cs := RspStateNext(s, i),
      cntr := match s.r.cs
              case RspStart => (if i.csr.rspTyp == R0 then 0 else if i.csr.rspTyp == R2 then 4 else 1)
              case RspArg => (if s.r.cntr > 0 && i.cmd.rxValid then s.r.cntr - 1 else s.r.cntr)
              case _ => s.r.cntr,
      cmdDone := !s.k.cmdRestart && s.c.cs == Rsp && (s.r.cmdDone || (!i.cmd.clkVld && s.r.clkVldQ)),
      clkVldQ := i.cmd.clkVld)
  }

  /** Something the running timer was waiting for has come, or a restart is on. */
  predicate TimerStops(s: Regs, i: Ins) {
    || (s.r.cs == RspStart && i.cmd.rxValid)
    || (s.p.cs == P.Rsp && i.pld.rxValid && !i.pld.rxEnd)
    || (s.p.cs == P.Data && s.p.waitRd && (i.pld.rxValid || !s.p.lineFree))
    || s.k.cmdRestart
  }

  predicate TimerStarts(s: Regs, i: Ins) {
    && !s.m.mask
    && (s.r.cs == RspStart || (s.p.cs == P.Rsp && i.csr.idx != 19) || (s.p.rdNotStarted && s.c.cs == Wait))
  }

  function TimerNext(s: Regs, i: Ins): Timer {
    Timer(
      en := if s.m.en then !TimerStops(s, i) else TimerStarts(s, i),
      mask := s.r.cs == RspStart || s.p.cs == P.Rsp,
      tmr0 := if s.m.en then (s.m.tmr0 + (if i.cmd.ckp then 1 else 0)) % 32 else 0,
      hit := s.m.tmr0 == 31 && i.cmd.ckp,
      tmr1 := if s.m.en && i.csr.tmrMod > 0 then (s.m.tmr1 + (if s.m.hit then 1 else 0)) % i.csr.tmrMod else 0,
      rspGt := s.m.tmr1 > i.csr.cmdTimeout && s.r.cs == RspStart,
      datGt := s.m.tmr1 > i.csr.datTimeout && s.p.cs == P.Data)
  }

  function RecoveryNext(s: Regs): Recovery {
    match s.k.cs
    case RecIdle =>
      if s.m.rspGt || s.m.datGt then Recovery(RecWait0, true, s.m.datGt)
      else Recovery(RecIdle, s.k.cmdRestart, s.k.datRestart)
    case RecWait0 => Recovery(RecWait1, s.k.cmdRestart, s.k.datRestart)
    case RecWait1 => Recovery(RecWait2, s.k.cmdRestart, s.k.datRestart)
    case RecWait2 => Recovery(RecEnd, s.k.cmdRestart, s.k.datRestart)
    case RecEnd => Recovery(RecIdle, false, false)
  }

  function Cleared(s: Regs): Capture {
    if s.c.cs == Dummy then Capture(s.s.ptr, 0x3F, ALL_ONES, ALL_ONES, ALL_ONES, ALL_ONES) else s.s
  }

  /** A word with its low byte cleared. */
  function HighPart(w: Word): (h: nat)
    ensures h <= 0xFFFF_FF00
  {
    w as nat / 0x100 * 0x100
  }

  /** Response word x goes to the register its position selects. */
  function Store(s: Capture, x: Word): Capture {
    Capture(
      ptr := (s.ptr + 1) % 8,
      b0 := if s.ptr == 0 then x as int % 0x40 else s.b0,
      d0 := if s.ptr == 1 then Swap(x) else s.d0,
      d1 := if s.ptr == 2 then Swap(x) else s.d1,
      d2 := if s.ptr == 3 then Swap(x) else s.d2,
      d3 := if s.ptr == 4 then (HighPart(Swap(x)) + Byte(s.d3, 0)) as Word
            else if s.ptr == 5 then (HighPart(s.d3) + Byte(x, 0)) as Word
            else s.d3)
  }

  function CaptureNext(s: Regs, i: Ins): Capture {
    var b := Cleared(s);
    if s.r.cs == RspIdle then Capture(0, b.b0, b.d0, b.d1, b.d2, b.d3)
    else if i.cmd.rxValid then Store(s.s, i.cmd.rxData)
    else b
  }

  /** What the command half shows the payload half. */
  function PIns(s: Regs, i: Ins): P.Ins {
    P.Ins(
      ready := i.pld.ready, rxValid := i.pld.rxValid, rxEnd := i.pld.rxEnd,
      datLine := i.pld.datLine, clkVld := i.pld.clkVld,
      memAvail := i.bus.memAvail, memRdat := i.bus.memRdat, memFree := i.bus.memFree, reqDone := i.bus.reqDone,
      cmdIdle := s.c.cs == Idle, cmdRsp := s.c.cs == Rsp, cmdWait := s.c.cs == Wait,
      kick := (s.r.cs == RspCrc || s.r.cs == RspWait) && CmdHandshake(s.c, i.cmd) && s.c.dcEn,
      restart := s.k.cmdRestart,
      writeCmd := WriteIndex(i.csr.idx, i.csr.arg), readCmd := ReadIndex(i.csr.idx, i.csr.arg),
      busTestWr := i.csr.idx == 19)
  }

  /** One clock of the command processor. */
  function Next(s: Regs, i: Ins): Regs {
    Regs(CmdNext(s, i), RspNext(s, i), TimerNext(s, i), RecoveryNext(s), CaptureNext(s, i),
         P.Next(i.csr.t, s.p, PIns(s, i)))
  }

  // ---------------------------------------------------------------- the clocked blocks

  /** The block that sends the token. */
  method EdgeToken(s: Regs, i: Ins) returns (c: Cmd)
    requires s.c.cs == Start || s.c.cs == Arg || s.c.cs == Crc
    ensures c == CmdNext(s, i)
  {
    var b := s.c;
    var cs, cntr, wr1rd0, lastByte, data := b.cs, b.cntr, b.wr1rd0, b.lastByte, ALL_ONES;
    var dcEn, dcNum, crcEn := b.dcEn, b.dcNum, b.crcEn;
    var detStart, detDone := b.detStart, b.detDone;
    var hs := b.valid && i.cmd.ready;
    if b.cs == Start {
      wr1rd0, data, cntr := true, (0x40 + i.csr.idx % 0x40) as Word, b.cntr - b.cntr % 4;
      if hs { cs, data, lastByte := Arg, Swap(i.csr.arg), 3; }
    } else if b.cs == Arg {
      data := b.data;
      if hs {
        cs := if b.cntr % 4 == 0 then Crc else Arg;
        cntr, data, lastByte, crcEn := b.cntr - b.cntr % 4, ALL_ONES, 0, true;
      }
    } else {
      lastByte, cntr := 0, if i.csr.rspTyp == R0 then 0 else if i.csr.rspTyp == R2 then 5 else 2;
      if hs { cs, crcEn, wr1rd0, dcEn, dcNum := Dummy, false, false, true, 1; }
    }
    if s.k.cmdRestart { cs, detStart, detDone := Idle, false, true; }
    c := Cmd(cs, detStart, detDone, cntr, true, wr1rd0, lastByte, data, dcEn, dcNum, crcEn);
  }

  /** Turnaround and response beats. */
  method EdgeResponse(s: Regs, i: Ins) returns (c: Cmd)
    requires s.c.cs == Dummy || s.c.cs == Rsp
    ensures c == CmdNext(s, i)
  {
    var b := s.c;
    var cs, cntr, lastByte, dcEn, dcNum, crcEn := b.cs, b.cntr, b.lastByte, b.dcEn, b.dcNum, b.crcEn;
    var detStart, detDone := b.detStart, b.detDone;
    var hs := b.valid && i.cmd.ready;
    if b.cs == Dummy {
      lastByte := 0;
      if hs {
        cs, dcEn, dcNum := if b.cntr != 0 then Rsp else CmdState.Wait, b.cntr == 0, if b.cntr != 0 then 0 else 7;
      }
    } else if hs {
      cntr := if b.cntr > 0 then b.cntr - 1 else b.cntr;
      lastByte := if b.cntr < 2 then 0 else if i.csr.rspTyp == R2 && b.cntr == 2 then 2 else 3;
      crcEn, dcEn, dcNum := b.cntr == 1, b.cntr == 0, 7;
      if s.r.cs == RspCrc { cs := CmdState.Wait; }
    }
    if s.k.cmdRestart { cs, detStart, detDone := Idle, false, true; }
    c := Cmd(cs, detStart, detDone, cntr, true, b.wr1rd0, lastByte, ALL_ONES, dcEn, dcNum, crcEn);
  }

  /** The wait for everything else to end. */
  method EdgeWait(s: Regs, i: Ins) returns (c: Cmd)
    requires s.c.cs == CmdState.Wait
    ensures c == CmdNext(s, i)
  {
    var b := s.c;
    var cs, detStart, valid := b.cs, b.detStart, b.valid;
    var waiting := s.p.waitWr || s.p.waitRd;
    var detDone := !(i.cmd.clkVld || i.cmd.dcEn || waiting);
    if b.valid && i.cmd.ready { valid := waiting; }
    if b.detDone { cs, detStart := Idle, false; }
    if s.k.cmdRestart { cs, detStart, detDone := Idle, false, true; }
    c := Cmd(cs, detStart, detDone, b.cntr, valid, b.wr1rd0, 0, ALL_ONES, b.dcEn, b.dcNum, b.crcEn);
  }

  /** Idle, where a start is taken up, and boot, which only a restart ends. */
  method EdgeIdle(s: Regs, i: Ins) returns (c: Cmd)
    requires s.c.cs == Idle || s.c.cs == Boot
    ensures c == CmdNext(s, i)
  {
    var b := s.c;
    var cs, detStart, detDone := b.cs, b.detStart, b.detDone;
    if b.cs == Idle {
      detStart, detDone := b.detStart || i.csr.start, false;
      if b.detStart { cs := if i.csr.boot then Boot else Start; }
    }
    if s.k.cmdRestart { cs, detStart, detDone := Idle, false, true; }
    if b.cs == Idle {
      c := Cmd(cs, detStart, detDone, 0, false, false, 0, ALL_ONES, false, 0, false);
    } else {
      c := Cmd(cs, detStart, detDone, b.cntr, true, true, b.lastByte, 0, b.dcEn, b.dcNum, b.crcEn);
    }
  }

  method EdgeCmd(s: Regs, i: Ins) returns (c: Cmd)
    ensures c == CmdNext(s, i)
  {
    match s.c.cs
    case Idle => c := EdgeIdle(s, i);
    case Boot => c := EdgeIdle(s, i);
    case Wait => c := EdgeWait(s, i);
    case Dummy => c := EdgeResponse(s, i);
    case Rsp => c := EdgeResponse(s, i);
    case _ => c := EdgeToken(s, i);
  }

  /** The block of the response state machine. */
  method EdgeRsp(s: Regs, i: Ins) returns (r: Response)
    ensures r == RspNext(s, i)
  {
    var cs, cntr := s.r.cs, s.r.cntr;
    var cmdDone := s.c.cs == Rsp && (s.r.cmdDone || (!i.cmd.clkVld && s.r.clkVldQ));
    match s.r.cs {
      case RspStart =>
        cntr := if i.csr.rspTyp == R0 then 0 else if i.csr.rspTyp == R2 then 4 else 1;
        if i.cmd.rxValid && s.r.clkVldQ { cs := RspArg; }
      case RspArg =>
        if s.r.cntr > 0 && i.cmd.rxValid { cntr := s.r.cntr - 1; }
        if i.cmd.rxValid && s.r.cntr < 2 { cs := RspCrc; }
      case RspCrc => if i.cmd.rxValid { cs := RspWait; }
      case RspWait => if !i.cmd.clkVld { cs := RspIdle; }
      case RspIdle => if s.r.cmdDone && i.csr.rspTyp != R0 { cs := RspStart; }
    }
    if s.k.cmdRestart { cs, cmdDone := RspIdle, false; }
    r := Response(cs, cntr, cmdDone, i.cmd.clkVld);
  }

  /** When the running timer stops, and an idle one starts. */
  method EdgeTimerEnable(s: Regs, i: Ins) returns (en: bool)
    ensures en == TimerNext(s, i).en
  {
    en := false;
    if s.m.en {
      en := true;
      if s.r.cs == RspStart && i.cmd.rxValid { en := false; }
      if s.p.cs == P.Rsp && i.pld.rxValid && !i.pld.rxEnd { en := false; }
      if s.p.cs == P.Data && s.p.waitRd && (i.pld.rxValid || !s.p.lineFree) { en := false; }
      if s.k.cmdRestart { en := false; }
    } else if !s.m.mask {
      if s.r.cs == RspStart { en := true; }
      if s.p.cs == P.Rsp && i.csr.idx != 19 { en := true; }
      if s.p.rdNotStarted && s.c.cs == CmdState.Wait { en := true; }
    }
  }

  /** The timer's block. */
  method EdgeTimer(s: Regs, i: Ins) returns (m: Timer)
    ensures m == TimerNext(s, i)
  {
    var tmr0, tmr1, rspGt, datGt := 0, 0, false, false;
    if s.m.en {
      tmr0 := s.m.tmr0;
      if i.cmd.ckp { tmr0 := tmr0 + 1; }
      tmr0 := tmr0 % 32;
      if i.csr.tmrMod > 0 {
        tmr1 := s.m.tmr1;
        if s.m.hit { tmr1 := tmr1 + 1; }
        tmr1 := tmr1 % i.csr.tmrMod;
      }
    }
    if s.r.cs == RspStart { rspGt := s.m.tmr1 > i.csr.cmdTimeout; }
    if s.p.cs == P.Data { datGt := s.m.tmr1 > i.csr.datTimeout; }
    var en := EdgeTimerEnable(s, i);
    m := Timer(en, s.r.cs == RspStart || s.p.cs == P.Rsp, tmr0, s.m.tmr0 == 31 && i.cmd.ckp, tmr1, rspGt, datGt);
  }

  /** The recovery's block. */
  method EdgeRecovery(s: Regs) returns (k: Recovery)
    ensures k == RecoveryNext(s)
  {
    var cs, cmdRestart, datRestart := s.k.cs, s.k.cmdRestart, s.k.datRestart;
    match s.k.cs {
      case RecIdle =>
        if s.m.rspGt || s.m.datGt { cs, cmdRestart, datRestart := RecWait0, true, s.m.datGt; }
      case RecWait0 => cs := RecWait1;
      case RecWait1 => cs := RecWait2;
      case RecWait2 => cs := RecEnd;
      case RecEnd => cs, cmdRestart, datRestart := RecIdle, false, false;
    }
    k := Recovery(cs, cmdRestart, datRestart);
  }

  /** The response registers' block: cleared in the turnaround, then one register for each position. */
  method EdgeCapture(s: Regs, i: Ins) returns (b: Capture)
    ensures b == CaptureNext(s, i)
  {
    var ptr, b0, d0, d1, d2, d3 := s.s.ptr, s.s.b0, s.s.d0, s.s.d1, s.s.d2, s.s.d3;
    if s.c.cs == Dummy { b0, d0, d1, d2, d3 := 0x3F, ALL_ONES, ALL_ONES, ALL_ONES, ALL_ONES; }
    if s.r.cs == RspIdle {
      ptr := 0;
    } else if i.cmd.rxValid {
      b0, d0, d1, d2, d3 := s.s.b0, s.s.d0, s.s.d1, s.s.d2, s.s.d3;
      var x := i.cmd.rxData;
      var swapped := FromBytes(Byte(x, 3), Byte(x, 2), Byte(x, 1), Byte(x, 0));
      if s.s.ptr == 0 { b0 := x as int % 0x40; }
      if s.s.ptr == 1 { d0 := swapped; }
      if s.s.ptr == 2 { d1 := swapped; }
      if s.s.ptr == 3 { d2 := swapped; }
      if s.s.ptr == 4 { d3 := (HighPart(swapped) + Byte(s.s.d3, 0)) as Word; }
      if s.s.ptr == 5 { d3 := (HighPart(s.s.d3) + Byte(x, 0)) as Word; }
      ptr := (ptr + 1) % 8;
    }
    b := Capture(ptr, b0, d0, d1, d2, d3);
  }

  /** The command processor, one field for the registers of each clocked block. */
  class Processor {
    var cmd: Cmd
    var rsp: Response
    var timer: Timer
    var recovery: Recovery
    var saved: Capture
    var payload: P.Regs

    function Value(): Regs
      reads this
    {
      Regs(cmd, rsp, timer, recovery, saved, payload)
    }

    /** Reset. */
    constructor (payload: P.Regs)
      requires payload.cs == P.Idle && !payload.waitWr && !payload.waitRd
      ensures Value().p == payload && Value().c.cs == Idle && !Value().c.detStart && Value().r.cs == RspIdle
      ensures !Value().r.cmdDone && Value().k.cs == RecIdle && !Value().k.cmdRestart
      ensures !Value().m.en && !Value().m.rspGt && !Value().m.datGt
    {
      cmd := Cmd(Idle, false, false, 0, false, false, 0, ALL_ONES, false, 0, false);
      rsp := Response(RspIdle, 0, false, false);
      timer := Timer(false, false, 0, false, 0, false, false);
      recovery := Recovery(RecIdle, false, false);
      saved := Capture(0, 0x3F, ALL_ONES, ALL_ONES, ALL_ONES, ALL_ONES);
      this.payload := payload;
    }

    /** One clock edge: every block reads the registers as they were, and all change at once. */
    method Tick(i: Ins)
      modifies this
      ensures Value() == Next(old(Value()), i)
    {
      var s := Value();
      var c := EdgeCmd(s, i);
      var r := EdgeRsp(s, i);
      var m := EdgeTimer(s, i);
      var k := EdgeRecovery(s);
      var b := EdgeCapture(s, i);
      var p := P.Edge(i.csr.t, s.p, PIns(s, i));
      cmd, rsp, timer, recovery, saved, payload := c, r, m, k, b, p;
    }
  }
}
