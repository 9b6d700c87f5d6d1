/** Why idle must be read before a command is started: a run in which software does not, and its start is lost. */
module LostStart {
  import opened Words
  import opened Geometry
  import opened CommandProc
  import opened Handshake
  import P = Payload

  /** The shortest timeout, a card that never answers, and a command that moves no data. */
  function Surroundings(t: Tables, e: Regs): Ins {
    Ins(CsrIns(t, 0, 0, 1, false, false, 0, 0, 2),
        CmdIns(true, false, 0, e.c.cs != CmdState.Rsp, false, true),
        PldIns(false, false, false, true, false),
        BusIns(false, 0, true, false))
  }

  /** Software starts a command after reset, and another on the clock on which the first has timed out. */
  predicate Begins(s: Sys) { s.host.Free? && (s.rec.written == 0 || (s.eng.m.rspGt && s.eng.k.cs == RecIdle)) }

  function Choose(t: Tables, s: Sys): Env {
    Env(if Begins(s) then Setup(WriteStart) else Choice.Wait, Surroundings(t, s.eng), {})
  }

  // ---------------------------------------------------------------- the state after n clocks

  predicate BusAt(s: Sys, n: nat) {
    if n == 1 || n == 47 then
      s.host == Access(WriteStart) && s.apb.wren && !s.apb.rden && !s.apb.rdDelay && !s.apb.pready && !s.file.cmdStart
    else if n == 2 || n == 48 then
      s.host == Access(WriteStart) && !s.apb.wren && !s.apb.rden && !s.apb.rdDelay && s.apb.pready && s.file.cmdStart
    else
      s.host.Free? && !s.apb.wren && !s.apb.rden && !s.apb.rdDelay && !s.apb.pready && !s.file.cmdStart
  }

  predicate CountsAt(s: Sys, n: nat) {
    && s.rec.written == (if n < 2 then 0 else if n < 48 then 1 else 2)
    && s.rec.taken == (if n < 3 then 0 else 1)
  }

  predicate Unused(m: Timer) { !m.en && !m.mask && !m.hit && m.tmr0 == 0 && m.tmr1 == 0 }
  predicate NoFlagUp(e: Regs) { !e.m.rspGt && !e.m.datGt && e.k.cs == RecIdle && !e.k.cmdRestart }

  predicate CommandAt(c: Cmd, n: nat) {
    && c.detStart == (3 <= n < 48)
    && (if n <= 3 || n == 48 then c.cs == Idle && (n == 3 ==> c.cntr == 0)
        else if n <= 5 then c.cs == CmdState.Start && c.valid == (n == 5) && c.cntr == 0
        else if n == 6 then c.cs == CmdState.Arg && c.valid && c.cntr == 0
        else if n == 7 then c.cs == CmdState.Crc && c.valid
        else if n == 8 then c.cs == CmdState.Dummy && c.valid && c.cntr == 2
        else n == 47 || c.cs == CmdState.Rsp)
  }

  predicate ResponseAt(r: Response, n: nat) {
    && (n <= 9 ==> !r.cmdDone) && (n == 9 ==> r.clkVldQ) && (n == 10 ==> r.cmdDone)
    && (n <= 10 ==> r.cs == RspIdle) && (11 <= n <= 46 ==> r.cs == RspStart)
  }

  predicate TimerAt(e: Regs, n: nat) {
    && (n <= 11 ==> Unused(e.m))
    && (12 <= n <= 43 ==> e.m.en && e.m.mask && !e.m.hit && e.m.tmr0 == n - 12 && e.m.tmr1 == 0)
    && (n == 44 ==> e.m.en && e.m.mask && e.m.hit && e.m.tmr1 == 0)
    && (n == 45 ==> e.m.tmr1 == 1)
    && (n <= 45 ==> NoFlagUp(e))
    && (n == 46 ==> e.m.rspGt && e.k.cs == RecIdle && !e.k.cmdRestart)
    && (n == 47 ==> e.k.cs == RecWait0 && e.k.cmdRestart)
    && (n == 48 ==> e.k.cs == RecWait1 && e.k.cmdRestart)
  }

  predicate EngineAt(e: Regs, n: nat) {
    && e.p.cs == P.Idle && !e.p.waitWr && !e.p.waitRd && !e.p.rdNotStarted
    && CommandAt(e.c, n) && ResponseAt(e.r, n) && TimerAt(e, n)
  }

  predicate At(s: Sys, n: nat) { BusAt(s, n) && CountsAt(s, n) && EngineAt(s.eng, n) }

  /** The engine's inputs in such a state. */
  predicate Carries(e: Regs, i: Ins, start: bool) {
    && i.csr.idx == 0 && i.csr.rspTyp == 1 && !i.csr.boot && i.csr.start == start && i.csr.cmdTimeout == 0
    && i.csr.tmrMod == 2 && i.cmd.ready && !i.cmd.rxValid && i.cmd.ckp && i.cmd.clkVld == (e.c.cs != CmdState.Rsp)
  }

  lemma IssueClock(e: Regs, i: Ins, n: nat)
    requires n < 11 && EngineAt(e, n) && Carries(e, i, n == 2)
    ensures EngineAt(Next(e, i), n + 1)
  {
  }

  lemma WaitClock(e: Regs, i: Ins, n: nat)
    requires 11 <= n < 46 && EngineAt(e, n) && Carries(e, i, false)
    ensures EngineAt(Next(e, i), n + 1)
  {
  }

  lemma RecoverClock(e: Regs, i: Ins, n: nat)
    requires 46 <= n < 48 && EngineAt(e, n) && Carries(e, i, false)
    ensures EngineAt(Next(e, i), n + 1)
  {
  }

  lemma EngineClock(e: Regs, i: Ins, n: nat)
    requires n < 48 && EngineAt(e, n) && Carries(e, i, n == 2)
    ensures EngineAt(Next(e, i), n + 1)
  {
    if n < 11 {
      IssueClock(e, i, n);
    } else if n < 46 {
      WaitClock(e, i, n);
    } else {
      RecoverClock(e, i, n);
    }
  }

  lemma BusClock(s: Sys, e: Env, g: Regs, n: nat)
    requires n < 48 && At(s, n) && EngineAt(g, n + 1)
    requires e.choice == if Begins(s) then Setup(WriteStart) else Choice.Wait
    ensures BusAt(Around(s, e, g), n + 1) && CountsAt(Around(s, e, g), n + 1)
  {
  }

  lemma Clock(t: Tables, s: Sys, n: nat)
    requires n < 48 && At(s, n)
    ensures At(Step(s, Choose(t, s)), n + 1)
  {
    var e := Choose(t, s);
    EngineClock(s.eng, EngineIns(s, e.ins), n);
    BusClock(s, e, CommandProc.Next(s.eng, EngineIns(s, e.ins)), n);
  }

  lemma OneMore(s: Sys, es: seq<Env>, e: Env)
    ensures Run(s, es + [e]) == Step(Run(s, es), e)
  {
    assert (es + [e])[..|es|] == es;
  }

  /** A run to the state after n clocks. */
  lemma {:induction false} RunTo(t: Tables, s: Sys, n: nat) returns (es: seq<Env>)
    requires n <= 48 && At(s, 0)
    ensures At(Run(s, es), n)
  {
    es := [];
    if n > 0 {
      es := RunTo(t, s, n - 1);
      es := OneClockMore(t, s, es, n - 1);
    }
  }

  lemma OneClockMore(t: Tables, s: Sys, es: seq<Env>, n: nat) returns (zs: seq<Env>)
    requires n < 48 && At(Run(s, es), n)
    ensures At(Run(s, zs), n + 1)
  {
    var m := Run(s, es);
    Clock(t, m, n);
    OneMore(s, es, Choose(t, m));
    zs := es + [Choose(t, m)];
  }

  /** The registers after reset. */
  function Begin(): Sys {
    Sys(Free, Apb(false, false, false, false, Other), File(false, {}, Other),
        Regs(Cmd(Idle, false, false, 0, false, false, 0, ALL_ONES, false, 0, false), Response(RspIdle, 0, false, false),
             Timer(false, false, 0, false, 0, false, false), Recovery(RecIdle, false, false),
             Capture(0, 0x3F, ALL_ONES, ALL_ONES, ALL_ONES, ALL_ONES),
             P.Regs(P.Idle, 0, false, false, ALL_ONES, false, false, 0, 0, false, 0,
                    false, false, false, false, false, false, 0, false)),
        Record(true, {}, 0, 0, 0, {}, false))
  }

  lemma BeginIsReset()
    ensures Reset(Begin()) && At(Begin(), 0)
  {
  }

  /** The start that meets a recovery. */
  lemma LastClock(t: Tables, s: Sys, n: nat)
    requires n == 48 && At(s, n)
    ensures var z := Step(s, Choose(t, s));
            s.file.cmdStart && !z.eng.c.detStart && !z.file.cmdStart && z.rec.written == 2 && z.rec.taken == 1
  {
  }

  /**
   * From reset, with a card that does not answer: of the two commands software starts the second is never taken up,
   * because it did not read idle in between.
   */
  lemma StartIsLost(t: Tables) returns (s: Sys, es: seq<Env>, e: Env)
    ensures Reset(s) && Run(s, es).file.cmdStart
    ensures var z := Step(Run(s, es), e);
            !z.eng.c.detStart && !z.file.cmdStart && z.rec.written == 2 && z.rec.taken == 1
  {
    var n: nat := 48;
    s := Begin();
    BeginIsReset();
    es := RunTo(t, s, n);
    e := Choose(t, Run(s, es));
    LastClock(t, Run(s, es), n);
  }
}
