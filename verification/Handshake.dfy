/** Software's view of the controller: an APB master polling through the completer, the registers and the
    command processor behind them. */
module Handshake {
  import opened Words
  import opened CommandProc
  import opened Interrupts
  import P = Payload

  /** One APB transfer, by what it does to the registers modelled here. */
  datatype Req =
    | WriteStart            // CTRL2 with the start bit set
    | WriteAck(bits: set<Irq>)
    | WriteSet(bits: set<Irq>)
    | WriteOther
    | ReadInfo
    | ReadStatus
    | ReadResp(k: nat)      // RESP_D0 to RESP_D4
    | ReadOther

  predicate IsWrite(q: Req) { q.WriteStart? || q.WriteAck? || q.WriteSet? || q.WriteOther? }

  /** Between transfers, or in the access phase of one; a setup phase is a choice made while free. */
  datatype Host = Free | Access(req: Req)

  datatype Choice = Wait | Setup(req: Req)

  datatype Data = Info(busy: bool) | Status(bits: set<Irq>) | Resp(w: Word) | Other

  /** The completer's registers and those of the register file that matter here. */
  datatype Apb = Apb(wren: bool, rden: bool, rdDelay: bool, pready: bool, prdat: Data)
  datatype File = File(cmdStart: bool, sts: set<Irq>, rdat: Data)

  /** What an observer keeps: whether software last saw idle, the triggers since the last start, counts of starts
      written, commands taken up and commands ended, the status bits that were up when the last start was written, and
      whether software has written the status since. */
  datatype Record = Record(
    knownIdle: bool, events: set<Irq>, written: nat, taken: nat, ended: nat, before: set<Irq>, touched: bool)

  datatype Sys = Sys(host: Host, apb: Apb, file: File, eng: Regs, rec: Record)

  /** One clock's choices: the master, the engine's other inputs, and the error detectors. */
  datatype Env = Env(choice: Choice, ins: Ins, errs: set<Irq>)

  const TERMINAL: set<Irq> := {Done, CmdTimeout, DatTimeout}

  function Triggers(e: Regs, errs: set<Irq>): set<Irq> {
    (if e.c.detDone then {Done} else {}) + (if e.m.rspGt then {CmdTimeout} else {})
    + (if e.m.datGt then {DatTimeout} else {}) + (errs - TERMINAL)
  }

  /** What a response register shows: the first byte, or one of the four words after it. */
  function RespWord(b: Capture, k: nat): Word {
    if k == 0 then (b.b0 % 0x40) as Word
    else if k == 1 then b.d0
    else if k == 2 then b.d1
    else if k == 3 then b.d2
    else b.d3
  }

  function ReadValue(q: Req, s: Sys): Data {
    match q
    case ReadInfo => Info(s.eng.c.detStart)
    case ReadStatus => Status(s.file.sts)
    case ReadResp(k) => Resp(RespWord(s.eng.s, k))
    case _ => Other
  }

  function ApbNext(h: Host, a: Apb, f: File, c: Choice): Apb {
    Apb(
      wren := h.Free? && c.Setup? && IsWrite(c.req),
      rden := h.Free? && c.Setup? && !IsWrite(c.req),
      rdDelay := a.rden,
      pready := !a.pready && (h.Access? || c.Setup?) && (a.wren || a.rdDelay),
      prdat := if a.rdDelay then f.rdat else a.prdat)
  }

  function HostNext(h: Host, a: Apb, c: Choice): Host {
    match h
    case Free => (match c case Setup(q) => Access(q) case Wait => Free)
    case Access(q) => if a.pready then Free else h
  }

  predicate Strobe(s: Sys, q: Req) { s.apb.wren && s.host == Access(q) }

  /** What the transfer in hand writes to the status register on this clock. */
  function StatusWrite(s: Sys): Interrupts.Write {
    if !s.apb.wren || s.host.Free? then NoWrite
    else match s.host.req
         case WriteAck(bits) => Ack(bits)
         case WriteSet(bits) => Interrupts.Set(bits)
         case _ => NoWrite
  }

  function FileNext(s: Sys, trig: set<Irq>): File {
    File(cmdStart := Strobe(s, WriteStart) && !s.file.cmdStart,
         sts := Interrupts.Next(s.file.sts, Clock(StatusWrite(s), trig)),
         rdat := if s.host.Access? then ReadValue(s.host.req, s) else Other)
  }

  /** A transfer of this request completes on this clock. */
  predicate Completes(s: Sys, q: Req) { s.apb.pready && s.host == Access(q) }

  predicate SeesIdle(s: Sys) { Completes(s, ReadInfo) && s.apb.prdat == Info(false) }

  function RecordNext(s: Sys, c: Choice, trig: set<Irq>, eng': Regs): Record {
    Record(
      knownIdle := if s.host.Free? && c == Setup(WriteStart) then false else s.rec.knownIdle || SeesIdle(s),
      events := if Strobe(s, WriteStart) then {} else s.rec.events + trig,
      written := s.rec.written + Bit(Strobe(s, WriteStart)),
      taken := s.rec.taken + Bit(!s.eng.c.detStart && eng'.c.detStart),
      ended := s.rec.ended + Bit(s.eng.c.detStart && !eng'.c.detStart),
      before := if Strobe(s, WriteStart) then s.file.sts + trig else s.rec.before,
      touched := !Strobe(s, WriteStart) && (s.rec.touched || StatusWrite(s) != NoWrite))
  }

  function EngineIns(s: Sys, i: Ins): Ins {
    Ins(CsrIns(i.csr.t, i.csr.idx, i.csr.arg, i.csr.rspTyp, i.csr.boot, s.file.cmdStart,
               i.csr.cmdTimeout, i.csr.datTimeout, i.csr.tmrMod), i.cmd, i.pld, i.bus)
  }

  function Around(s: Sys, e: Env, eng': Regs): Sys {
    var trig := Triggers(s.eng, e.errs);
    Sys(HostNext(s.host, s.apb, e.choice), ApbNext(s.host, s.apb, s.file, e.choice), FileNext(s, trig), eng',
        RecordNext(s, e.choice, trig, eng'))
  }

  /** One clock of master, completer, registers and engine. */
  function Step(s: Sys, e: Env): Sys { Around(s, e, CommandProc.Next(s.eng, EngineIns(s, e.ins))) }

  function Run(s: Sys, es: seq<Env>): Sys
    decreases |es|
  {
    if es == [] then s else Step(Run(s, es[..|es| - 1]), es[|es| - 1])
  }

  /** The driver's habit: commands are started and status bits cleared only once idle has been read. */
  predicate Disciplined(s: Sys, e: Env) {
    s.host.Free? && e.choice.Setup? && (e.choice.req.WriteStart? || e.choice.req.WriteAck?) ==> s.rec.knownIdle
  }

  // ---------------------------------------------------------------- the engine

  predicate Waiting(e: Regs) { e.p.waitWr || e.p.waitRd }
  predicate NoFlag(e: Regs) { !e.m.rspGt && !e.m.datGt }

  /** Which states of the engine's machines can meet. */
  predicate EngineInv(e: Regs) {
    && (Waiting(e) ==> e.c.cs == Rsp || (e.c.cs == CmdState.Wait && !e.c.detDone))
    && (e.c.cs != CmdState.Wait && e.c.cs != Idle ==> !e.c.detDone)
    && (e.p.cs != P.Idle && e.p.cs != P.Wait ==> Waiting(e))
    && (e.r.cs == RspStart || e.r.cs == RspArg ==> e.c.cs == Rsp)
    && (e.r.cs == RspIdle && e.r.cmdDone ==> e.c.cs == Rsp)
    && (e.c.cs != Idle ==> e.c.detStart)
    && e.k.cmdRestart == (e.k.cs != RecIdle)
    && (e.k.cs == RecIdle && e.m.rspGt ==> e.c.cs == Rsp)
    && (e.k.cs == RecIdle && e.m.datGt ==> Waiting(e))
    && (e.k.cs == RecWait0 ==> e.c.detStart)
    && (e.k.cs == RecWait1 || e.k.cs == RecWait2 || e.k.cs == RecEnd ==> !e.c.detStart && AtRest(e))
    && (e.k.cs == RecWait2 || e.k.cs == RecEnd ==> NoFlag(e))
  }

  predicate AtRest(e: Regs) {
    e.c.cs == Idle && e.r.cs == RspIdle && !e.r.cmdDone && e.p.cs == P.Idle && !Waiting(e)
  }

  lemma EngineKept(e: Regs, i: Ins)
    requires EngineInv(e)
    ensures EngineInv(CommandProc.Next(e, i))
  {
  }

  /** What the registers around it can tell of one clock of the engine. */
  predicate Moves(e: Regs, start: bool, e': Regs) {
    && (e.c.detStart && !e'.c.detStart ==> e.k.cs != RecIdle || (e.c.cs == CmdState.Wait && e.c.detDone))
    && (!e.c.detStart ==> e'.c.detStart == (start && e.k.cs == RecIdle && e.c.cs == Idle))
    && (!e.c.detStart && !start && e.k.cs == RecIdle && NoFlag(e) ==> e'.k.cs == RecIdle && NoFlag(e'))
    && (e.k.cs == RecEnd ==> NoFlag(e'))
    && (e.c.cs == Idle && e.k.cs == RecIdle ==> !e'.c.detDone)
    && e'.k.cs == (match e.k.cs
                   case RecIdle => if NoFlag(e) then RecIdle else RecWait0
                   case RecWait0 => RecWait1
                   case RecWait1 => RecWait2
                   case RecWait2 => RecEnd
                   case RecEnd => RecIdle)
  }

  lemma EngineMoves(e: Regs, i: Ins)
    requires EngineInv(e)
    ensures Moves(e, i.csr.start, CommandProc.Next(e, i))
  {
  }

  // ---------------------------------------------------------------- the joint invariant

  /** No command in the engine and no recovery under way. */
  predicate Calm(e: Regs) { !e.c.detStart && e.c.cs == Idle && e.k.cs == RecIdle && NoFlag(e) }

  /** No command in the engine; a recovery may still be running out. */
  predicate Over(e: Regs) { !e.c.detStart && NoFlag(e) && (Calm(e) || e.k.cs == RecWait2 || e.k.cs == RecEnd) }

  /** Exactly one step of a transfer is on at a time, and only during its access phase. */
  predicate ApbInv(s: Sys) {
    match s.host
    case Free => !s.apb.wren && !s.apb.rden && !s.apb.rdDelay && !s.apb.pready
    case Access(q) =>
      && s.apb.wren == (IsWrite(q) && !s.apb.pready)
      && (IsWrite(q) ==> !s.apb.rden && !s.apb.rdDelay)
      && (!IsWrite(q) ==> Bit(s.apb.rden) + Bit(s.apb.rdDelay) + Bit(s.apb.pready) == 1)
  }

  predicate StartInv(s: Sys) {
    && s.file.cmdStart == Completes(s, WriteStart)
    && (s.host == Access(WriteStart) ==> !s.rec.knownIdle && Calm(s.eng))
    && (s.host.Access? && s.host.req.WriteAck? ==> s.rec.knownIdle)
    && (s.rec.knownIdle ==> Calm(s.eng) && (s.host.Access? ==> !s.eng.c.detDone))
  }

  predicate ReadInv(s: Sys) {
    s.host == Access(ReadInfo) ==>
      && (s.apb.rdDelay ==> s.file.rdat.Info? && (!s.file.rdat.busy ==> Over(s.eng)))
      && (s.apb.pready ==> s.apb.prdat.Info? &&
                           (!s.apb.prdat.busy ==> Over(s.eng) && s.eng.k.cs != RecWait2))
  }

  predicate CountInv(s: Sys) {
    && s.rec.written == s.rec.taken + Bit(s.file.cmdStart)
    && s.rec.taken == s.rec.ended + Bit(s.eng.c.detStart)
  }

  /** The command last started has reported its end. */
  ghost predicate Reported(s: Sys) { exists q :: q in s.rec.events && q in TERMINAL }

  ghost predicate EventInv(s: Sys) {
    && (s.eng.k.cs == RecWait0 ==> Reported(s))
    && (!s.rec.knownIdle && s.host != Access(WriteStart) && !s.eng.c.detStart ==> Reported(s))
    && (!s.rec.knownIdle && !Strobe(s, WriteStart) ==> s.rec.events <= s.file.sts)
  }

  ghost predicate Inv(s: Sys) {
    EngineInv(s.eng) && ApbInv(s) && StartInv(s) && ReadInv(s) && CountInv(s) && EventInv(s)
  }

  lemma StartKept(s: Sys, e: Env, g: Regs)
    requires Inv(s) && Disciplined(s, e) && EngineInv(g) && Moves(s.eng, s.file.cmdStart, g)
    ensures ApbInv(Around(s, e, g)) && StartInv(Around(s, e, g)) && CountInv(Around(s, e, g))
  {
  }

  lemma ReadKept(s: Sys, e: Env, g: Regs)
    requires Inv(s) && Disciplined(s, e) && EngineInv(g) && Moves(s.eng, s.file.cmdStart, g)
    ensures ReadInv(Around(s, e, g))
  {
  }

  lemma EventKept(s: Sys, e: Env, g: Regs)
    requires Inv(s) && Disciplined(s, e) && EngineInv(g) && Moves(s.eng, s.file.cmdStart, g)
    ensures EventInv(Around(s, e, g))
  {
  }

  lemma StepKeepsInv(s: Sys, e: Env)
    requires Inv(s) && Disciplined(s, e)
    ensures Inv(Step(s, e))
  {
    var i := EngineIns(s, e.ins);
    EngineKept(s.eng, i);
    EngineMoves(s.eng, i);
    StartKept(s, e, CommandProc.Next(s.eng, i));
    ReadKept(s, e, CommandProc.Next(s.eng, i));
    EventKept(s, e, CommandProc.Next(s.eng, i));
  }

  // ---------------------------------------------------------------- whole runs

  ghost predicate DisciplinedRun(s: Sys, es: seq<Env>)
    decreases |es|
  {
    es == [] ||
    (DisciplinedRun(s, es[..|es| - 1]) && Disciplined(Run(s, es[..|es| - 1]), es[|es| - 1]))
  }

  /** After reset: nothing under way anywhere. */
  predicate Reset(s: Sys) {
    && s.host == Free && s.apb == Apb(false, false, false, false, Other) && !s.file.cmdStart
    && EngineInv(s.eng) && Calm(s.eng) && s.rec == Record(true, {}, 0, 0, 0, s.file.sts, false)
  }

  lemma {:induction false} RunKeepsInv(s: Sys, es: seq<Env>)
    requires Reset(s) && DisciplinedRun(s, es)
    ensures Inv(Run(s, es))
    decreases |es|
  {
    if es != [] {
      RunKeepsInv(s, es[..|es| - 1]);
      StepKeepsInv(Run(s, es[..|es| - 1]), es[|es| - 1]);
    }
  }

  lemma IdleSeen(r: Sys)
    requires Inv(r) && SeesIdle(r)
    ensures r.rec.written == r.rec.taken == r.rec.ended
    ensures !r.rec.knownIdle ==> Reported(r) && r.rec.events <= r.file.sts
  {
  }

  /**
   * No stale poll. When a read of the busy bit completes with idle, every command ever started has been taken up
   * and has ended; the last one has reported done or a timeout since it was started, and what it reported is in
   * the status register.
   */
  lemma IdleIsNeverStale(s: Sys, es: seq<Env>)
    requires Reset(s) && DisciplinedRun(s, es) && SeesIdle(Run(s, es))
    ensures var r := Run(s, es);
            && r.rec.written == r.rec.taken == r.rec.ended
            && (!r.rec.knownIdle ==> Reported(r) && r.rec.events <= r.file.sts)
  {
    RunKeepsInv(s, es);
    IdleSeen(Run(s, es));
  }

  /** No lost start. A start that reaches the command processor is taken up, and its first state is entered. */
  lemma StartIsTaken(s: Sys, es: seq<Env>, e1: Env, e2: Env)
    requires Reset(s) && DisciplinedRun(s, es) && Run(s, es).file.cmdStart && Disciplined(Run(s, es), e1)
    ensures var r := Run(s, es); var r1 := Step(r, e1); var r2 := Step(r1, e2);
            && r1.rec.taken == r.rec.taken + 1 == r1.rec.written && r1.eng.c.detStart
            && (r2.eng.c.cs == CmdState.Start || r2.eng.c.cs == Boot)
  {
    RunKeepsInv(s, es);
    EngineTakes(Run(s, es).eng, EngineIns(Run(s, es), e1.ins));
    EngineEnters(Step(Run(s, es), e1).eng, EngineIns(Step(Run(s, es), e1), e2.ins));
  }

  lemma EngineTakes(e: Regs, i: Ins)
    requires Calm(e) && EngineInv(e) && i.csr.start
    ensures var e' := CommandProc.Next(e, i); e'.c.detStart && e'.c.cs == Idle && e'.k.cs == RecIdle && !e'.k.cmdRestart
  {
  }

  lemma EngineEnters(e: Regs, i: Ins)
    requires e.c.detStart && e.c.cs == Idle && !e.k.cmdRestart
    ensures CommandProc.Next(e, i).c.cs == CmdState.Start || CommandProc.Next(e, i).c.cs == Boot
  {
  }

  /** Why idle must be read first: a start that meets no command is lost exactly when a recovery is running. */
  lemma StartLostIffRecovering(e: Regs, i: Ins)
    requires EngineInv(e) && !e.c.detStart && i.csr.start
    ensures !CommandProc.Next(e, i).c.detStart <==> e.k.cs != RecIdle
  {
    EngineMoves(e, i);
  }

  /** A clear written after idle was read sticks: no trigger of the finished command meets it. */
  lemma ClearSticks(s: Sys, es: seq<Env>, e: Env, bits: set<Irq>)
    requires Reset(s) && DisciplinedRun(s, es) && Strobe(Run(s, es), WriteAck(bits))
    ensures Step(Run(s, es), e).file.sts * bits * TERMINAL == {}
  {
    RunKeepsInv(s, es);
  }

  /** Counted over a run: whenever software knows the controller is idle, starts, commands and ends agree. */
  lemma KnownIdleBalances(s: Sys, es: seq<Env>)
    requires Reset(s) && DisciplinedRun(s, es)
    ensures var r := Run(s, es);
            && r.rec.ended <= r.rec.taken <= r.rec.written <= r.rec.ended + 1
            && (r.rec.knownIdle ==> r.rec.written == r.rec.ended)
  {
    RunKeepsInv(s, es);
  }

  /** One clock of an idle engine that nothing starts. */
  lemma CalmClock(s: Sys, e: Env)
    requires Inv(s) && Calm(s.eng) && !s.file.cmdStart
    ensures Calm(Step(s, e).eng)
    ensures Step(s, e).host == HostNext(s.host, s.apb, e.choice)
    ensures Step(s, e).apb == ApbNext(s.host, s.apb, s.file, e.choice)
    ensures s.host == Access(ReadInfo) ==> Step(s, e).file.rdat == Info(false)
  {
    EngineMoves(s.eng, EngineIns(s, e.ins));
    EngineKept(s.eng, EngineIns(s, e.ins));
  }

  /** A poll begun at reset returns idle three clocks later. */
  lemma PollFromReset(s: Sys, e0: Env, e1: Env, e2: Env)
    requires Reset(s) && e0.choice == Setup(ReadInfo)
    ensures SeesIdle(Step(Step(Step(s, e0), e1), e2)) && Disciplined(s, e0)
  {
    var s1 := Step(s, e0);
    var s2 := Step(s1, e1);
    StepKeepsInv(s, e0);
    CalmClock(s, e0);
    StepKeepsInv(s1, e1);
    CalmClock(s1, e1);
    CalmClock(s2, e2);
  }

  // ---------------------------------------------------------------- what a read of the status returns

  lemma ApbKept(s: Sys, e: Env)
    requires ApbInv(s)
    ensures ApbInv(Step(s, e))
  {
  }

  lemma {:induction false} RunKeepsApb(s: Sys, es: seq<Env>)
    requires ApbInv(s)
    ensures ApbInv(Run(s, es))
    decreases |es|
  {
    if es != [] {
      RunKeepsApb(s, es[..|es| - 1]);
      ApbKept(Run(s, es[..|es| - 1]), es[|es| - 1]);
    }
  }

  /** What a completed read returned is the register in the earlier state, on the transfer's first clock. */
  predicate Returns(r: Sys, m: Sys, q: Req) { m.host == Access(q) && m.apb.rden && r.apb.prdat == ReadValue(q, m) }

  /** The two clocks before a read completes. */
  lemma ReadComesBack(s: Sys, e: Env, e': Env, q: Req)
    requires ApbInv(s) && Completes(Step(Step(s, e), e'), q) && !IsWrite(q)
    ensures Returns(Step(Step(s, e), e'), s, q)
  {
    ApbKept(s, e);
  }

  lemma NotAtOnce(s: Sys, e: Env, e': Env, q: Req)
    requires ApbInv(s) && s.host.Free?
    ensures !Completes(s, q) && !Completes(Step(s, e), q)
    ensures !IsWrite(q) ==> !Completes(Step(Step(s, e), e'), q)
  {
    ApbKept(s, e);
  }

  lemma LastOne(s: Sys, es: seq<Env>, z: Sys)
    requires es != [] && z == Run(s, es[..|es| - 1])
    ensures Run(s, es) == Step(z, es[|es| - 1])
  {
  }

  lemma LastTwo(s: Sys, es: seq<Env>)
    requires |es| >= 2
    ensures Run(s, es) == Step(Step(Run(s, es[..|es| - 2]), es[|es| - 2]), es[|es| - 1])
  {
    var n := |es|;
    assert es[..n - 1][..n - 2] == es[..n - 2];
    LastOne(s, es[..n - 1], Run(s, es[..n - 2]));
    LastOne(s, es, Step(Run(s, es[..n - 2]), es[n - 2]));
  }

  /** No read completes within two clocks of a free bus. */
  lemma NotSoon(s: Sys, es: seq<Env>, q: Req)
    requires ApbInv(s) && s.host.Free? && |es| <= 2 && !IsWrite(q)
    ensures !Completes(Run(s, es), q)
  {
    if es != [] {
      NotAtOnce(s, es[0], es[|es| - 1], q);
      if |es| == 2 { LastTwo(s, es); }
      assert es[..0] == [];
    }
  }

  /** A read returns the register as it was on the transfer's first clock, two clocks before it completes. */
  lemma ReadIsRegister(s: Sys, es: seq<Env>, q: Req)
    requires s.host.Free? && ApbInv(s) && Completes(Run(s, es), q) && !IsWrite(q)
    ensures |es| >= 3 && Returns(Run(s, es), Run(s, es[..|es| - 2]), q)
  {
    if |es| <= 2 {
      NotSoon(s, es, q);
    } else {
      LastTwo(s, es);
      RunKeepsApb(s, es[..|es| - 2]);
      ReadComesBack(Run(s, es[..|es| - 2]), es[|es| - 2], es[|es| - 1], q);
    }
  }

  /** What happened to the status register, clock by clock. */
  function History(s: Sys, es: seq<Env>): seq<Clock>
    decreases |es|
  {
    if es == [] then []
    else
      var m, e := Run(s, es[..|es| - 1]), es[|es| - 1];
      History(s, es[..|es| - 1]) + [Clock(StatusWrite(m), Triggers(m.eng, e.errs))]
  }

  lemma {:induction false} StatusIsHistory(s: Sys, es: seq<Env>)
    ensures Run(s, es).file.sts == Interrupts.After(s.file.sts, History(s, es)) && |History(s, es)| == |es|
    decreases |es|
  {
    if es != [] {
      StatusIsHistory(s, es[..|es| - 1]);
      assert History(s, es)[..|es| - 1] == History(s, es[..|es| - 1]);
    }
  }

  /**
   * A read of the status returns a bit if and only if something raised it before the transfer's first clock and no
   * write cleared it since, whatever else happened in between.
   */
  lemma StatusReadTells(s: Sys, es: seq<Env>, q: Irq)
    requires s.host.Free? && ApbInv(s) && Completes(Run(s, es), ReadStatus)
    ensures |es| >= 3 && Run(s, es).apb.prdat.Status? && var h := History(s, es[..|es| - 2]);
            q in Run(s, es).apb.prdat.bits <==>
            || (q in s.file.sts && Uncleared(h, 0, |h|, q))
            || (exists k :: 0 <= k < |h| && Raises(h[k], q) && Uncleared(h, k + 1, |h|, q))
  {
    ReadIsRegister(s, es, ReadStatus);
    StatusIsHistory(s, es[..|es| - 2]);
    SetIffRaisedSinceClear(s.file.sts, History(s, es[..|es| - 2]), q);
  }

  /** Until software writes the status, it holds what was up at the start and what came since. */
  predicate UntouchedInv(s: Sys) { !s.rec.touched ==> s.file.sts == s.rec.before + s.rec.events }

  lemma {:induction false} RunKeepsUntouched(s: Sys, es: seq<Env>)
    requires UntouchedInv(s)
    ensures UntouchedInv(Run(s, es))
    decreases |es|
  {
    if es != [] { RunKeepsUntouched(s, es[..|es| - 1]); }
  }

  /** Software that knows idle has the report of the last command among what came since its start. */
  ghost predicate KnownMeansReported(s: Sys) { s.rec.knownIdle && s.rec.written > 0 ==> Reported(s) }

  lemma KnownKept(s: Sys, e: Env)
    requires Inv(s) && KnownMeansReported(s)
    ensures KnownMeansReported(Step(s, e))
  {
    if !s.rec.knownIdle && SeesIdle(s) { IdleSeen(s); }
    assert s.rec.events <= Step(s, e).rec.events || Strobe(s, WriteStart);
  }

  lemma {:induction false} RunKeepsKnown(s: Sys, es: seq<Env>)
    requires Reset(s) && DisciplinedRun(s, es)
    ensures KnownMeansReported(Run(s, es))
    decreases |es|
  {
    if es != [] {
      RunKeepsKnown(s, es[..|es| - 1]);
      RunKeepsInv(s, es[..|es| - 1]);
      KnownKept(Run(s, es[..|es| - 1]), es[|es| - 1]);
    }
  }

  /**
   * The status software reads once it knows idle, before it writes the register, is what was up when the last command
   * was started together with everything that came since, the command's own end among it.
   */
  lemma StatusOfCommand(s: Sys, es: seq<Env>)
    requires Reset(s) && DisciplinedRun(s, es) && Completes(Run(s, es), ReadStatus)
    ensures |es| >= 3 && TellsCommand(Run(s, es[..|es| - 2]), Run(s, es).apb.prdat)
  {
    ReadIsRegister(s, es, ReadStatus);
    KnownEarlier(s, es, |es| - 2);
    TellsIfReturned(Run(s, es), Run(s, es[..|es| - 2]));
  }

  lemma KnownEarlier(s: Sys, es: seq<Env>, n: nat)
    requires Reset(s) && DisciplinedRun(s, es) && n <= |es|
    ensures UntouchedInv(Run(s, es[..n])) && KnownMeansReported(Run(s, es[..n]))
  {
    RunKeepsUntouched(s, es[..n]);
    PrefixIsDisciplined(s, es, n);
    RunKeepsKnown(s, es[..n]);
  }

  ghost predicate TellsCommand(m: Sys, d: Data) {
    && (!m.rec.touched ==> d == Status(m.rec.before + m.rec.events))
    && (m.rec.knownIdle && m.rec.written > 0 ==> Reported(m))
  }

  lemma TellsIfReturned(r: Sys, m: Sys)
    requires Returns(r, m, ReadStatus) && UntouchedInv(m) && KnownMeansReported(m)
    ensures TellsCommand(m, r.apb.prdat)
  {
  }

  lemma {:induction false} PrefixIsDisciplined(s: Sys, es: seq<Env>, n: nat)
    requires DisciplinedRun(s, es) && n <= |es|
    ensures DisciplinedRun(s, es[..n])
    decreases |es|
  {
    if n == |es| {
      assert es[..n] == es;
    } else {
      assert es[..|es| - 1][..n] == es[..n];
      PrefixIsDisciplined(s, es[..|es| - 1], n);
    }
  }

  /** The engine's own report of an event: the end of a command, and which timer ran out. */
  predicate Raised(e: Regs, q: Irq) {
    match q
    case Done => e.c.detDone
    case CmdTimeout => e.m.rspGt
    case DatTimeout => e.m.datGt
    case _ => false
  }

  /** It was raised on some clock of the run since the last start was written. */
  ghost predicate RaisedSinceStart(s: Sys, es: seq<Env>, q: Irq)
    decreases |es|
  {
    es != [] &&
    (var m := Run(s, es[..|es| - 1]);
     !Strobe(m, WriteStart) && (RaisedSinceStart(s, es[..|es| - 1], q) || Raised(m.eng, q)))
  }

  lemma EventClock(s: Sys, e: Env, q: Irq)
    requires q in TERMINAL
    ensures q in Step(s, e).rec.events <==> !Strobe(s, WriteStart) && (q in s.rec.events || Raised(s.eng, q))
  {
    TriggersTell(s.eng, e.errs, q);
  }

  lemma TriggersTell(e: Regs, errs: set<Irq>, q: Irq)
    requires q in TERMINAL
    ensures q in Triggers(e, errs) <==> Raised(e, q)
  {
  }

  /** The end and the two timeouts among the events since the start are the engine's, each under its own name. */
  lemma {:induction false} EventsAreRaised(s: Sys, es: seq<Env>, q: Irq)
    requires Reset(s) && q in TERMINAL
    ensures q in Run(s, es).rec.events <==> RaisedSinceStart(s, es, q)
    decreases |es|
  {
    if es != [] {
      EventsAreRaised(s, es[..|es| - 1], q);
      EventClock(Run(s, es[..|es| - 1]), es[|es| - 1], q);
    }
  }

  // ---------------------------------------------------------------- the registers themselves

  /** The synchronous APB completer. */
  class Completer {
    var wrenR: bool
    var rdenR: bool
    var rdDelay: bool
    var pready: bool
    var prdat: Data

    function Value(): Apb
      reads this
    {
      Apb(wrenR, rdenR, rdDelay, pready, prdat)
    }

    constructor ()
      ensures Value() == Apb(false, false, false, false, Other)
    {
      wrenR, rdenR, rdDelay, pready, prdat := false, false, false, false, Other;
    }

    /** psel is high in both phases of a transfer, penable in the second. */
    method Tick(h: Host, f: File, c: Choice)
      modifies this
      ensures Value() == ApbNext(h, old(Value()), f, c)
    {
      var setup := h.Free? && c.Setup?;
      var psel, penable := h.Access? || setup, h.Access?;
      var pwrite := if setup then IsWrite(c.req) else h.Access? && IsWrite(h.req);
      if rdDelay { prdat := f.rdat; }
      pready := !pready && psel && (wrenR || rdDelay);
      rdDelay := rdenR;
      wrenR := psel && !penable && pwrite;
      rdenR := psel && !penable && !pwrite;
    }
  }

  /** The part of the register file a command's handshake goes through. */
  class RegisterFile {
    var cmdStart: bool
    var intSts: set<Irq>
    var rdatR: Data

    function Value(): File
      reads this
    {
      File(cmdStart, intSts, rdatR)
    }

    constructor ()
      ensures Value() == File(false, {}, Other)
    {
      cmdStart, intSts, rdatR := false, {}, Other;
    }

    /** The start bit clears itself; a trigger wins over a clear; reads are registered. */
    method Tick(s: Sys, trig: set<Irq>)
      requires Value() == s.file
      modifies this
      ensures Value() == FileNext(s, trig)
    {
      var start, rdat, sts := false, Other, intSts;
      if s.host.Access? {
        var q := s.host.req;
        if q.ReadInfo? { rdat := Info(s.eng.c.detStart); }
        if q.ReadStatus? { rdat := Status(intSts); }
        if q.ReadResp? {
          var w := s.eng.s.d3;
          if q.k == 0 { w := (s.eng.s.b0 % 0x40) as Word; }
          if q.k == 1 { w := s.eng.s.d0; }
          if q.k == 2 { w := s.eng.s.d1; }
          if q.k == 3 { w := s.eng.s.d2; }
          rdat := Resp(w);
        }
        if s.apb.wren {
          if q.WriteAck? { sts := sts - q.bits; }
          if q.WriteSet? { sts := sts + q.bits; }
          start := q.WriteStart? && !cmdStart;
        }
      }
      cmdStart, intSts, rdatR := start, sts + trig, rdat;
    }
  }
}
