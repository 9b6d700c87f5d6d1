/** The driver's habit meets the hardware: accesses that never disturb a running command, made over the bus, keep
    the registers still under every command the engine holds. */
module Composition {
  import opened Words
  import opened Interrupts
  import R = Registers
  import H = Handshake
  import C = CommandProc
  import D = Driver
  import F = Fields
  import Arith

  /** Bits of INT_STATUS by position. */
  function BitsOf(w: Word): set<Irq> {
    (if w as int % 2 == 1 then {Done} else {})
    + (if w as int / 0x1_0000 % 2 == 1 then {CmdCrc} else {}) + (if w as int / 0x2_0000 % 2 == 1 then {DatCrc} else {})
    + (if w as int / 0x4_0000 % 2 == 1 then {BusWr} else {}) + (if w as int / 0x8_0000 % 2 == 1 then {BusRd} else {})
    + (if w as int / 0x10_0000 % 2 == 1 then {CmdTimeout} else {})
    + (if w as int / 0x20_0000 % 2 == 1 then {DatTimeout} else {})
  }

  /** The register's value with these bits up. */
  function WordOf(bits: set<Irq>): Word {
    (Bit(Done in bits)
     + 0x1_0000 * Bit(CmdCrc in bits) + 0x2_0000 * Bit(DatCrc in bits)
     + 0x4_0000 * Bit(BusWr in bits) + 0x8_0000 * Bit(BusRd in bits)
     + 0x10_0000 * Bit(CmdTimeout in bits) + 0x20_0000 * Bit(DatTimeout in bits)) as Word
  }

  lemma Six(b: nat, c: nat, d: nat, e: nat, f: nat, g: nat)
    requires b < 2 && c < 2 && d < 2 && e < 2 && f < 2 && g < 2
    ensures var r := b + 2 * c + 4 * d + 8 * e + 0x10 * f + 0x20 * g;
            && r % 2 == b && r / 2 % 2 == c && r / 4 % 2 == d
            && r / 8 % 2 == e && r / 0x10 % 2 == f && r / 0x20 % 2 == g
            && (r == 0 <==> b + c + d + e + f + g == 0)
  {
    var r := b + 2 * c + 4 * d + 8 * e + 0x10 * f + 0x20 * g;
    assert r / 2 == c + 2 * d + 4 * e + 8 * f + 0x10 * g && r / 4 == d + 2 * e + 4 * f + 8 * g;
    assert r / 8 == e + 2 * f + 4 * g && r / 0x10 == f + 2 * g && r / 0x20 == g;
  }

  lemma Shifted(a: nat, r: nat)
    requires a < 2
    ensures var w := a + 0x1_0000 * r;
            && w % 2 == a && (w < 2 <==> r == 0) && w / 0x1_0000 == r && w / 0x2_0000 == r / 2 && w / 0x4_0000 == r / 4
            && w / 0x8_0000 == r / 8 && w / 0x10_0000 == r / 0x10 && w / 0x20_0000 == r / 0x20
  {
  }

  /** The bits of a status word by position. */
  lemma Digits(bits: set<Irq>)
    ensures var w := WordOf(bits) as nat;
            && w % 2 == Bit(Done in bits) && w / 0x1_0000 % 2 == Bit(CmdCrc in bits)
            && w / 0x2_0000 % 2 == Bit(DatCrc in bits) && w / 0x4_0000 % 2 == Bit(BusWr in bits)
            && w / 0x8_0000 % 2 == Bit(BusRd in bits) && w / 0x10_0000 % 2 == Bit(CmdTimeout in bits)
            && w / 0x20_0000 % 2 == Bit(DatTimeout in bits)
            && (w < 2 <==> CmdCrc !in bits && DatCrc !in bits && BusWr !in bits && BusRd !in bits &&
                           CmdTimeout !in bits && DatTimeout !in bits)
  {
    var b, c, d := Bit(CmdCrc in bits), Bit(DatCrc in bits), Bit(BusWr in bits);
    var e, f, g := Bit(BusRd in bits), Bit(CmdTimeout in bits), Bit(DatTimeout in bits);
    var r := b + 2 * c + 4 * d + 8 * e + 0x10 * f + 0x20 * g;
    assert WordOf(bits) as nat == Bit(Done in bits) + 0x1_0000 * r;
    Six(b, c, d, e, f, g);
    Shifted(Bit(Done in bits), r);
  }

  lemma BitsOfWord(w: Word, q: Irq)
    ensures q in BitsOf(w) <==>
            match q
            case Done => w as int % 2 == 1
            case CmdCrc => w as int / 0x1_0000 % 2 == 1
            case DatCrc => w as int / 0x2_0000 % 2 == 1
            case BusWr => w as int / 0x4_0000 % 2 == 1
            case BusRd => w as int / 0x8_0000 % 2 == 1
            case CmdTimeout => w as int / 0x10_0000 % 2 == 1
            case DatTimeout => w as int / 0x20_0000 % 2 == 1
  {
  }

  /** A status word reads back as its bits, and shows no bit above the lowest exactly when no error is among them. */
  lemma WordTells(bits: set<Irq>)
    ensures BitsOf(WordOf(bits)) == bits && (WordOf(bits) < 2 <==> bits * ERRORS == {})
  {
    Digits(bits);
    forall q: Irq ensures q in BitsOf(WordOf(bits)) <==> q in bits { BitsOfWord(WordOf(bits), q); }
    NoError(bits);
  }

  /** The driver's test for a timeout is for the two timeout bits. */
  lemma TimeoutTells(bits: set<Irq>)
    ensures D.TimedOut(WordOf(bits)) <==> CmdTimeout in bits || DatTimeout in bits
  {
    Digits(bits);
    var t := WordOf(bits) as nat / 0x10_0000;
    assert WordOf(bits) as nat / 0x20_0000 == t / 2;
  }

  lemma NoError(bits: set<Irq>)
    ensures bits * ERRORS == {} <==>
            CmdCrc !in bits && DatCrc !in bits && BusWr !in bits && BusRd !in bits && CmdTimeout !in bits &&
            DatTimeout !in bits
  {
    forall q: Irq ensures q in bits * ERRORS <==> q in bits && q != Done {
      match q
      case Done =>
      case _ =>
    }
  }

  /** The transfer that makes an access. */
  function TransferOf(a: R.Access): H.Req {
    match a
    case Wr(Ctrl2, val) => if R.Starts(val) then H.WriteStart else H.WriteOther
    case Wr(IntStatus, val) => H.WriteAck(BitsOf(val))
    case Wr(_, _) => H.WriteOther
    case Rd(InfoStatus, _) => H.ReadInfo
    case Rd(IntStatus, _) => H.ReadStatus
    case Rd(RespD0, _) => H.ReadResp(0)
    case Rd(RespD1, _) => H.ReadResp(1)
    case Rd(RespD2, _) => H.ReadResp(2)
    case Rd(RespD3, _) => H.ReadResp(3)
    case Rd(RespD4, _) => H.ReadResp(4)
    case Rd(_, _) => H.ReadOther
  }

  /** Hardware, the software's view of it, and the access in progress. */
  datatype Sys = Sys(hw: H.Sys, view: R.View, pending: R.Access)

  /** One clock: software may begin an access when the bus is free; `got` is what registers not modelled return. */
  datatype Env = Env(pick: Option<R.Access>, ins: C.Ins, errs: set<Irq>, got: Word)

  function Choice(s: Sys, e: Env): H.Choice {
    if s.hw.host.Free? && e.pick.Some? then H.Setup(TransferOf(e.pick.value)) else H.Wait
  }

  /** The access with the value the bus returned: the busy bit lies under the line states for debugging. */
  function Returned(a: R.Access, d: H.Data, got: Word): R.Access {
    match a
    case Wr(_, _) => a
    case Rd(IntStatus, _) => R.Rd(R.IntStatus, if d.Status? then WordOf(d.bits) else got)
    case Rd(InfoStatus, _) => R.Rd(R.InfoStatus, got - got % 2 + (if d == H.Info(false) then 0 else 1))
    case Rd(reg, _) => R.Rd(reg, if d.Resp? then d.w else got)
  }

  function Step(s: Sys, e: Env): Sys {
    Sys(H.Step(s.hw, H.Env(Choice(s, e), e.ins, e.errs)),
        if s.hw.host.Access? && s.hw.apb.pready then R.Note(s.view, Returned(s.pending, s.hw.apb.prdat, e.got))
        else s.view,
        if s.hw.host.Free? && e.pick.Some? then e.pick.value else s.pending)
  }

  function Run(s: Sys, es: seq<Env>): Sys
    decreases |es|
  {
    if es == [] then s else Step(Run(s, es[..|es| - 1]), es[|es| - 1])
  }

  /** Software begins no access that its own view of the controller would count as disturbing. */
  predicate Considerate(s: Sys, e: Env) {
    s.hw.host.Free? && e.pick.Some? ==> R.Note(s.view, e.pick.value).ok
  }

  ghost predicate ConsiderateRun(s: Sys, es: seq<Env>)
    decreases |es|
  {
    es == [] ||
    (ConsiderateRun(s, es[..|es| - 1]) && Considerate(Run(s, es[..|es| - 1]), es[|es| - 1]))
  }

  // ---------------------------------------------------------------- the two agree

  /** Software thinks a command may be running exactly when the hardware's observer has not seen it read idle. */
  predicate Agree(s: Sys) {
    && s.view.ok
    && (s.hw.host.Free? ==> s.hw.rec.knownIdle == !s.view.running)
    && (s.hw.host.Access? ==>
          && s.hw.host.req == TransferOf(s.pending)
          && R.Note(s.view, s.pending).ok
          && (if s.hw.host.req == H.WriteStart then !s.view.running
              else s.hw.rec.knownIdle == !s.view.running))
  }

  /** A considerate master is a disciplined one. */
  lemma ConsiderateIsDisciplined(s: Sys, e: Env)
    requires Agree(s) && Considerate(s, e)
    ensures H.Disciplined(s.hw, H.Env(Choice(s, e), e.ins, e.errs))
  {
  }

  /** What software can notice of one clock of the hardware. */
  predicate Noticed(h: H.Sys, c: H.Choice, h': H.Sys) {
    && h'.host == H.HostNext(h.host, h.apb, c)
    && h'.rec.knownIdle == (if h.host.Free? && c == H.Setup(H.WriteStart) then false
                            else h.rec.knownIdle || H.SeesIdle(h))
  }

  lemma ClockNoticed(h: H.Sys, e: H.Env)
    ensures Noticed(h, e.choice, H.Step(h, e))
  {
  }

  /** The software's side of one clock. */
  predicate Seen(s: Sys, e: Env, z: Sys) {
    && z.view == (if s.hw.host.Access? && s.hw.apb.pready
                  then R.Note(s.view, Returned(s.pending, s.hw.apb.prdat, e.got)) else s.view)
    && z.pending == if s.hw.host.Free? && e.pick.Some? then e.pick.value else s.pending
  }

  lemma AgreeWhenFree(s: Sys, e: Env, z: Sys)
    requires Agree(s) && H.Inv(s.hw) && Considerate(s, e) && Noticed(s.hw, Choice(s, e), z.hw) && Seen(s, e, z)
    requires s.hw.host.Free?
    ensures Agree(z)
  {
  }

  /** What an access that has returned does to software's belief. */
  predicate Believes(v: R.View, a: R.Access, d: H.Data, v': R.View) {
    && v'.ok == R.Note(v, a).ok
    && v'.running == (if a.Wr? then R.Note(v, a).running
                      else v.running && !(a.reg == R.InfoStatus && d == H.Info(false)))
  }

  lemma ReturnedBelieves(v: R.View, a: R.Access, d: H.Data, got: Word)
    ensures Believes(v, a, d, R.Note(v, Returned(a, d, got)))
  {
    if a.Rd? { ReadBelieves(v, a, d, Returned(a, d, got)); }
  }

  lemma ReadBelieves(v: R.View, a: R.Access, d: H.Data, b: R.Access)
    requires a.Rd? && b.Rd? && b.reg == a.reg
    requires a.reg == R.InfoStatus ==> (b.val as int % 2 == 0 <==> d == H.Info(false))
    ensures Believes(v, a, d, R.Note(v, b))
  {
  }

  lemma AgreeInTransfer(s: Sys, c: H.Choice, z: Sys)
    requires Agree(s) && H.Inv(s.hw) && Noticed(s.hw, c, z.hw) && s.hw.host.Access? && z.pending == s.pending
    requires if s.hw.apb.pready then Believes(s.view, s.pending, s.hw.apb.prdat, z.view) else z.view == s.view
    ensures Agree(z)
  {
  }

  lemma AgreeKept(s: Sys, e: Env)
    requires Agree(s) && H.Inv(s.hw) && Considerate(s, e)
    ensures Agree(Step(s, e))
  {
    ClockNoticed(s.hw, H.Env(Choice(s, e), e.ins, e.errs));
    if s.hw.host.Free? {
      AgreeWhenFree(s, e, Step(s, e));
    } else {
      ReturnedBelieves(s.view, s.pending, s.hw.apb.prdat, e.got);
      AgreeInTransfer(s, Choice(s, e), Step(s, e));
    }
  }

  lemma StepKeeps(s: Sys, e: Env)
    requires Agree(s) && H.Inv(s.hw) && Considerate(s, e)
    ensures Agree(Step(s, e)) && H.Inv(Step(s, e).hw)
  {
    ConsiderateIsDisciplined(s, e);
    H.StepKeepsInv(s.hw, H.Env(Choice(s, e), e.ins, e.errs));
    AgreeKept(s, e);
  }

  /** Software and hardware agree on whether the status was written since the last start, once such a write is done. */
  predicate TouchAgree(s: Sys) {
    && (s.hw.host.Access? ==> s.hw.host.req == TransferOf(s.pending))
    && s.hw.rec.touched == (if s.hw.host.Access? && s.pending.Wr? && s.hw.apb.pready
                            then R.Note(s.view, s.pending).touched else s.view.touched)
  }

  predicate TouchNoticed(h: H.Sys, c: H.Choice, h': H.Sys) {
    && h'.host == H.HostNext(h.host, h.apb, c)
    && h'.apb.pready == (!h.apb.pready && (h.host.Access? || c.Setup?) && (h.apb.wren || h.apb.rdDelay))
    && h'.rec.touched == (!H.Strobe(h, H.WriteStart) && (h.rec.touched || H.StatusWrite(h) != NoWrite))
  }

  lemma TouchParts(s: Sys, e: Env, z: Sys)
    requires TouchAgree(s) && H.ApbInv(s.hw) && TouchNoticed(s.hw, Choice(s, e), z.hw) && Seen(s, e, z)
    ensures TouchAgree(z)
  {
  }

  lemma {:induction false} RunKeepsTouch(s: Sys, es: seq<Env>)
    requires Begin(s)
    ensures TouchAgree(Run(s, es)) && H.ApbInv(Run(s, es).hw)
    decreases |es|
  {
    if es != [] {
      var m, e := Run(s, es[..|es| - 1]), es[|es| - 1];
      RunKeepsTouch(s, es[..|es| - 1]);
      H.ApbKept(m.hw, H.Env(Choice(m, e), e.ins, e.errs));
      TouchParts(m, e, Step(m, e));
    }
  }

  predicate Begin(s: Sys) { H.Reset(s.hw) && s.view == R.FRESH }

  lemma {:induction false} RunKeeps(s: Sys, es: seq<Env>)
    requires Begin(s) && ConsiderateRun(s, es)
    ensures Agree(Run(s, es)) && H.Inv(Run(s, es).hw)
    decreases |es|
  {
    if es != [] {
      RunKeeps(s, es[..|es| - 1]);
      StepKeeps(Run(s, es[..|es| - 1]), es[|es| - 1]);
    }
  }

  lemma GuardedMeansCalm(r: Sys)
    requires Agree(r) && H.Inv(r.hw) && r.hw.host.Access? && R.Guarded(r.pending.reg) && r.pending.Wr?
    requires r.hw.apb.wren
    ensures H.Calm(r.hw.eng)
  {
  }

  /**
   * The registers are still under every command: whenever a write that a running command relies on reaches the
   * register file, the engine holds no command and no recovery is under way.
   */
  lemma RegistersStill(s: Sys, es: seq<Env>)
    requires Begin(s) && ConsiderateRun(s, es)
    ensures var r := Run(s, es);
            r.hw.host.Access? && r.hw.apb.wren && r.pending.Wr? && R.Guarded(r.pending.reg) ==> H.Calm(r.hw.eng)
  {
    RunKeeps(s, es);
    var r := Run(s, es);
    if r.hw.host.Access? && r.hw.apb.wren && r.pending.Wr? && R.Guarded(r.pending.reg) { GuardedMeansCalm(r); }
  }

  /** Software that believes the controller idle is right. */
  lemma BeliefIsRight(s: Sys, es: seq<Env>)
    requires Begin(s) && ConsiderateRun(s, es)
    ensures var r := Run(s, es);
            r.hw.host.Free? && !r.view.running ==> H.Calm(r.hw.eng) && r.hw.rec.written == r.hw.rec.ended
  {
    RunKeeps(s, es);
  }

  // ---------------------------------------------------------------- what a read of the status tells software

  /** The hardware's half of a run. */
  function HwRun(s: Sys, es: seq<Env>): seq<H.Env>
    decreases |es|
  {
    if es == [] then []
    else
      var m, e := Run(s, es[..|es| - 1]), es[|es| - 1];
      HwRun(s, es[..|es| - 1]) + [H.Env(Choice(m, e), e.ins, e.errs)]
  }

  lemma HwOneMore(h: H.Sys, hs: seq<H.Env>, e: H.Env)
    ensures H.Run(h, hs + [e]) == H.Step(H.Run(h, hs), e)
    ensures H.DisciplinedRun(h, hs) && H.Disciplined(H.Run(h, hs), e) ==> H.DisciplinedRun(h, hs + [e])
  {
    assert (hs + [e])[..|hs|] == hs;
  }

  lemma HwClock(m: Sys, e: Env, h: H.Sys, hs: seq<H.Env>)
    requires Agree(m) && Considerate(m, e) && m.hw == H.Run(h, hs) && H.DisciplinedRun(h, hs)
    ensures var ms := hs + [H.Env(Choice(m, e), e.ins, e.errs)];
            Step(m, e).hw == H.Run(h, ms) && H.DisciplinedRun(h, ms)
  {
    ConsiderateIsDisciplined(m, e);
    HwOneMore(h, hs, H.Env(Choice(m, e), e.ins, e.errs));
  }

  lemma {:induction false} RunIsHw(s: Sys, es: seq<Env>)
    requires Begin(s) && ConsiderateRun(s, es)
    ensures Run(s, es).hw == H.Run(s.hw, HwRun(s, es)) && |HwRun(s, es)| == |es|
    ensures H.DisciplinedRun(s.hw, HwRun(s, es))
    decreases |es|
  {
    if es != [] {
      var m, e := Run(s, es[..|es| - 1]), es[|es| - 1];
      RunIsHw(s, es[..|es| - 1]);
      RunKeeps(s, es[..|es| - 1]);
      HwClock(m, e, s.hw, HwRun(s, es[..|es| - 1]));
    }
  }

  lemma {:induction false} HwRunPrefix(s: Sys, es: seq<Env>, n: nat)
    requires n <= |es|
    ensures |HwRun(s, es)| == |es| && HwRun(s, es)[..n] == HwRun(s, es[..n])
    decreases |es|
  {
    if n == |es| {
      assert es[..n] == es;
      if es != [] { HwRunPrefix(s, es[..|es| - 1], 0); }
    } else {
      assert es[..|es| - 1][..n] == es[..n];
      HwRunPrefix(s, es[..|es| - 1], n);
      assert HwRun(s, es)[..n] == HwRun(s, es[..|es| - 1])[..n];
    }
  }

  lemma EarlierHw(s: Sys, es: seq<Env>, n: nat)
    requires Begin(s) && ConsiderateRun(s, es) && n <= |es|
    ensures |HwRun(s, es)| == |es| && Run(s, es[..n]).hw == H.Run(s.hw, HwRun(s, es)[..n])
  {
    HwRunPrefix(s, es, n);
    PrefixIsConsiderate(s, es, n);
    RunIsHw(s, es[..n]);
  }

  /** The hardware at the end of a disciplined run and two clocks before. */
  ghost predicate Ends(h: H.Sys, hs: seq<H.Env>, m: H.Sys, r: H.Sys) {
    |hs| >= 2 && m == H.Run(h, hs[..|hs| - 2]) && r == H.Run(h, hs) && H.DisciplinedRun(h, hs)
  }

  lemma RunEnds(s: Sys, es: seq<Env>)
    requires Begin(s) && ConsiderateRun(s, es) && |es| >= 2
    ensures Ends(s.hw, HwRun(s, es), Run(s, es[..|es| - 2]).hw, Run(s, es).hw)
  {
    RunIsHw(s, es);
    EarlierHw(s, es, |es| - 2);
  }

  lemma ReadEnds(h: H.Sys, hs: seq<H.Env>, m: H.Sys, r: H.Sys, q: H.Req)
    requires h.host.Free? && H.ApbInv(h) && Ends(h, hs, m, r) && H.Completes(r, q) && !H.IsWrite(q)
    ensures |hs| >= 3 && H.Returns(r, m, q)
  {
    H.ReadIsRegister(h, hs, q);
  }

  lemma NotSoon(s: Sys, es: seq<Env>, q: H.Req)
    requires Begin(s) && ConsiderateRun(s, es) && H.Completes(Run(s, es).hw, q) && !H.IsWrite(q)
    ensures |es| >= 3 && |HwRun(s, es)| == |es|
  {
    RunIsHw(s, es);
    H.ReadIsRegister(s.hw, HwRun(s, es), q);
  }

  /** Software's read of INT_STATUS completes. */
  predicate ReadsStatus(s: Sys) {
    H.Completes(s.hw, H.ReadStatus) && s.pending.Rd? && s.pending.reg == R.IntStatus
  }

  /**
   * The value logged for a completed read of INT_STATUS, if the status was not written since the last start: the bits
   * that were up at that start and those raised since, up to the transfer's first clock two clocks before (m), the
   * command's own end among them once software has read idle. The driver's test for an error, some bit above the
   * lowest, holds exactly when an error is among them.
   */
  lemma StatusLogged(s: Sys, es: seq<Env>, m: Sys, r: Sys, a: R.Access, got: Word)
    requires Begin(s) && ConsiderateRun(s, es) && r == Run(s, es) && ReadsStatus(r) && !r.view.touched
    requires |es| >= 2 ==> m == Run(s, es[..|es| - 2])
    requires a == Returned(r.pending, r.hw.apb.prdat, got)
    ensures |es| >= 3 && TellsSoftware(m.hw, !r.view.running, a)
  {
    EndOfRead(s, es);
    StatusAtStart(s, es, m, r);
    Tells(m.hw, !r.view.running, r.pending, r.hw.apb.prdat, got);
  }

  /** What a completed status read says of the register on the transfer's first clock. */
  ghost predicate ToldAtStart(m: H.Sys, r: H.Sys) {
    H.TellsCommand(m, r.apb.prdat) && m.rec.touched == r.rec.touched && m.rec.knownIdle == r.rec.knownIdle
  }

  lemma StatusAtStart(s: Sys, es: seq<Env>, m: Sys, r: Sys)
    requires Begin(s) && ConsiderateRun(s, es) && r == Run(s, es) && H.Completes(r.hw, H.ReadStatus)
    requires |es| >= 2 ==> m == Run(s, es[..|es| - 2])
    ensures |es| >= 3 && ToldAtStart(m.hw, r.hw)
  {
    NotSoon(s, es, H.ReadStatus);
    RunEnds(s, es);
    StatusReturned(s.hw, HwRun(s, es), m.hw, r.hw);
  }

  /** Software's view and the hardware's record agree when a read ends. */
  predicate ReadAgrees(r: Sys) {
    r.hw.rec.touched == r.view.touched && r.hw.rec.knownIdle == !r.view.running
  }

  lemma EndOfRead(s: Sys, es: seq<Env>)
    requires Begin(s) && ConsiderateRun(s, es) && ReadsStatus(Run(s, es))
    ensures ReadAgrees(Run(s, es))
  {
    RunKeepsTouch(s, es);
    RunKeeps(s, es);
    AgreesAtRead(Run(s, es));
  }

  lemma AgreesAtRead(r: Sys)
    requires Agree(r) && TouchAgree(r) && ReadsStatus(r)
    ensures ReadAgrees(r)
  {
  }

  lemma StatusReturned(h: H.Sys, hs: seq<H.Env>, m: H.Sys, r: H.Sys)
    requires H.Reset(h) && Ends(h, hs, m, r) && H.Completes(r, H.ReadStatus)
    ensures ToldAtStart(m, r)
  {
    H.StatusOfCommand(h, hs);
    StillUntouched(h, hs);
  }

  /** What a logged status value says of the hardware at the time. */
  ghost predicate TellsSoftware(m: H.Sys, idle: bool, a: R.Access) {
    && a.Rd? && a.reg == R.IntStatus && BitsOf(a.val) == m.rec.before + m.rec.events
    && (a.val >= 2 <==> (m.rec.before + m.rec.events) * ERRORS != {})
    && (idle && m.rec.written > 0 ==> H.Reported(m))
  }

  lemma Tells(m: H.Sys, idle: bool, a: R.Access, d: H.Data, got: Word)
    requires H.TellsCommand(m, d) && !m.rec.touched && a.Rd? && a.reg == R.IntStatus && (idle ==> m.rec.knownIdle)
    ensures TellsSoftware(m, idle, Returned(a, d, got))
  {
    WordTells(m.rec.before + m.rec.events);
  }

  /** During a status read the register is not written. */
  lemma StillUntouched(h: H.Sys, hs: seq<H.Env>)
    requires h.host.Free? && H.ApbInv(h) && H.Completes(H.Run(h, hs), H.ReadStatus)
    ensures |hs| >= 3 && var m, r := H.Run(h, hs[..|hs| - 2]).rec, H.Run(h, hs).rec;
            m.touched == r.touched && m.knownIdle == r.knownIdle
  {
    H.ReadIsRegister(h, hs, H.ReadStatus);
    H.LastTwo(h, hs);
    H.RunKeepsApb(h, hs[..|hs| - 2]);
    TouchesNothing(H.Run(h, hs[..|hs| - 2]), hs[|hs| - 2], hs[|hs| - 1]);
  }

  /** What a logged response register says of the hardware at the time. */
  predicate TellsResponse(m: H.Sys, q: H.Req, a: R.Access) {
    q.ReadResp? && a.Rd? && TransferOf(a) == q && a.val == H.RespWord(m.eng.s, q.k)
  }

  /** The value logged for a completed read of a response register is the engine's, on the transfer's first clock. */
  lemma ResponseLogged(s: Sys, es: seq<Env>, got: Word)
    requires Begin(s) && ConsiderateRun(s, es)
    requires H.Completes(Run(s, es).hw, TransferOf(Run(s, es).pending)) && TransferOf(Run(s, es).pending).ReadResp?
    ensures |es| >= 3 && var m, r := Run(s, es[..|es| - 2]).hw, Run(s, es);
            TellsResponse(m, TransferOf(r.pending), Returned(r.pending, r.hw.apb.prdat, got))
  {
    NotSoon(s, es, TransferOf(Run(s, es).pending));
    RunEnds(s, es);
    RespReturned(s.hw, HwRun(s, es), Run(s, es[..|es| - 2]).hw, Run(s, es).hw, Run(s, es).pending, got);
  }

  lemma RespReturned(h: H.Sys, hs: seq<H.Env>, m: H.Sys, r: H.Sys, a: R.Access, got: Word)
    requires h.host.Free? && H.ApbInv(h) && Ends(h, hs, m, r)
    requires H.Completes(r, TransferOf(a)) && TransferOf(a).ReadResp?
    ensures TellsResponse(m, TransferOf(a), Returned(a, r.apb.prdat, got))
  {
    ReadEnds(h, hs, m, r, TransferOf(a));
    RespTold(TransferOf(a), m, r.apb.prdat, a, got);
  }

  lemma RespTold(q: H.Req, m: H.Sys, d: H.Data, a: R.Access, got: Word)
    requires q == TransferOf(a) && q.ReadResp? && d == H.ReadValue(q, m)
    ensures TellsResponse(m, q, Returned(a, d, got))
  {
  }

  lemma TouchesNothing(m: H.Sys, e: H.Env, e': H.Env)
    requires H.ApbInv(m) && m.host == H.Access(H.ReadStatus) && m.apb.rden
    ensures var r := H.Step(H.Step(m, e), e').rec; r.touched == m.rec.touched && r.knownIdle == m.rec.knownIdle
  {
  }

  lemma {:induction false} PrefixIsConsiderate(s: Sys, es: seq<Env>, n: nat)
    requires ConsiderateRun(s, es) && n <= |es|
    ensures ConsiderateRun(s, es[..n])
    decreases |es|
  {
    if n == |es| {
      assert es[..n] == es;
    } else {
      assert es[..|es| - 1][..n] == es[..n];
      PrefixIsConsiderate(s, es[..|es| - 1], n);
    }
  }

  // ---------------------------------------------------------------- the driver is such software

  /** The accesses completed in a run, with what the reads among them returned. */
  function Made(s: Sys, es: seq<Env>): seq<R.Access>
    decreases |es|
  {
    if es == [] then []
    else
      var m, e := Run(s, es[..|es| - 1]), es[|es| - 1];
      if m.hw.host.Access? && m.hw.apb.pready
      then Made(s, es[..|es| - 1]) + [Returned(m.pending, m.hw.apb.prdat, e.got)]
      else Made(s, es[..|es| - 1])
  }

  lemma {:induction false} ViewIsWatched(s: Sys, es: seq<Env>)
    ensures Run(s, es).view == R.Watched(s.view, Made(s, es))
    decreases |es|
  {
    if es != [] {
      var m, e := Run(s, es[..|es| - 1]), es[|es| - 1];
      ViewIsWatched(s, es[..|es| - 1]);
      R.WatchedOneMore(s.view, Made(s, es[..|es| - 1]), Returned(m.pending, m.hw.apb.prdat, e.got));
    }
  }

  /** The same access, before what a read returns is known. */
  predicate Same(a: R.Access, b: R.Access) { a == b || (a.Rd? && b.Rd? && a.reg == b.reg) }

  /** The software of a run makes the accesses of a log, one after another, and gets the log's answers. */
  ghost predicate Follows(s: Sys, es: seq<Env>, log: seq<R.Access>)
    decreases |es|
  {
    es == [] ||
    (var m, e, made := Run(s, es[..|es| - 1]), es[|es| - 1], Made(s, es[..|es| - 1]);
     && Follows(s, es[..|es| - 1], log) && made <= log
     && (m.hw.host.Free? && e.pick.Some? ==> |made| < |log| && Same(e.pick.value, log[|made|])))
  }

  lemma PickIsGood(v: R.View, log: seq<R.Access>, made: seq<R.Access>, a: R.Access)
    requires R.Watched(v, log).ok && made <= log && |made| < |log| && Same(a, log[|made|])
    ensures R.Note(R.Watched(v, made), a).ok
  {
    R.OkThroughout(v, log, |made| + 1);
    assert log[..|made| + 1] == made + [log[|made|]];
    R.WatchedOneMore(v, made, log[|made|]);
  }

  lemma {:induction false} FollowingIsConsiderate(s: Sys, es: seq<Env>, log: seq<R.Access>)
    requires Begin(s) && R.Watched(R.FRESH, log).ok && Follows(s, es, log)
    ensures ConsiderateRun(s, es)
    decreases |es|
  {
    if es != [] {
      var m, e, made := Run(s, es[..|es| - 1]), es[|es| - 1], Made(s, es[..|es| - 1]);
      FollowingIsConsiderate(s, es[..|es| - 1], log);
      ViewIsWatched(s, es[..|es| - 1]);
      if m.hw.host.Free? && e.pick.Some? { PickIsGood(R.FRESH, log, made, e.pick.value); }
    }
  }

  /**
   * The driver, whatever was called on it, on the bus: a run of the hardware in which software makes the accesses of
   * the driver's log writes no register a command relies on while the engine holds one or recovers.
   */
  lemma DriverKeepsRegistersStill(d: D.Driver, s: Sys, es: seq<Env>)
    requires d.Ready() && Begin(s) && Follows(s, es, d.trace)
    ensures var r := Run(s, es);
            r.hw.host.Access? && r.hw.apb.wren && r.pending.Wr? && R.Guarded(r.pending.reg) ==> H.Calm(r.hw.eng)
  {
    FollowingIsConsiderate(s, es, d.trace);
    RegistersStill(s, es);
  }

  // ---------------------------------------------------------------- what the driver takes for a data command

  /**
   * The driver sets up memory and one block for exactly the commands that move data in the hardware, and the long
   * data timeout for exactly those that read and the two that fetch long registers.
   */
  lemma DataCommandsAgree(a: D.Api, tgtAddr: Word, blockSize: Word)
    ensures var idx, arg := D.Code(a), D.Argument(a, tgtAddr);
            && (D.Memory(a).Some? <==> C.WriteIndex(idx, arg) || C.ReadIndex(idx, arg))
            && (D.Timeouts(a) != 0 <==> C.ReadIndex(idx, arg) || idx == 9 || idx == 10)
            && F.Get(D.Block(a, blockSize) as nat, D.NUM_BLOCKS) == Bit(D.Memory(a).Some?)
  {
    D.OneBlockField(blockSize);
    if a.BusTestW? || a.BusTestR? { D.OneBlockField(a.bytes); }
    F.ZeroField(D.NUM_BLOCKS);
  }

  lemma TwoBelow(n: nat, rest: nat, p: nat)
    requires rest * p == n + 2 && 2 <= p
    ensures n % p == p - 2
  {
    assert (rest - 1) * p == rest * p - p;
    Arith.DivModIs(n, rest - 1, p - 2, p);
  }

  /** The data timeout the driver asks for is the longest that can expire, in every build: two below the timer's
      number of states. */
  lemma LongestThatExpires(a: D.Api, width: nat)
    requires 1 <= width <= 16 && D.Timeouts(a) != 0
    ensures D.Timeouts(a) as nat / 0x1_0000 % Pow2(width) + 2 == Pow2(width)
  {
    TwoBelow(0xFFFE, Pow2(16 - width), Pow2(width)) by {
      F.PowAdd(16 - width, width);
      Full();
      assert Pow2(width) == 2 * Pow2(width - 1);
    }
    assert 0xFFFE_0000 / 0x1_0000 == 0xFFFE;
  }

  lemma Full()
    ensures Pow2(16) == 0x1_0000
  {
    F.PowAdd(8, 8);
    assert Pow2(8) == 0x100;
  }
}
