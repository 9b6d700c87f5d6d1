/** Three write commands clock by clock, each legal: one that is stranded without its cue, one that misses the end of
    its response, and one whose receiver does not see a word. */
module ResponseRuns {
  import opened Words
  import opened Geometry
  import opened CommandProc
  import opened Exchange
  import opened ResponsePhase
  import H = Handshake
  import P = Payload

  /** WRITE_BLOCK with a 48-bit response. */
  const WRITE := Order(24, 0, 1)

  const RESPONSE: seq<Octet> := [0, 0, 0, 0, 0, 0]

  /** What the CMD line does on one clock: a beat is taken, a word arrives, its clock runs. */
  datatype Tick = Tick(ready: bool, rx: bool, clk: bool)

  function Inputs(t: Tables, k: Tick): Ins {
    Ins(CsrIns(t, 24, 0, 1, false, false, 0, 0, 2), CmdIns(k.ready, k.rx, 0, k.clk, false, false),
        PldIns(false, false, false, true, false), BusIns(false, 0, true, false))
  }

  /** The registers that decide. */
  datatype Snap = Snap(
    cs: CmdState, valid: bool, cntr: nat, dcEn: bool, rs: RspState, rcntr: nat, cmdDone: bool, clk: bool,
    waitWr: bool, asked: nat, received: nat, unseen: nat)

  predicate Sends(cs: CmdState) { cs == CmdState.Start || cs == CmdState.Arg || cs == CmdState.Crc }

  predicate CmdAt(c: Cmd, a: Snap) {
    && c.cs == a.cs && c.valid == a.valid && c.cntr == a.cntr && c.dcEn == a.dcEn && c.detStart && !c.detDone
    && (a.valid ==> c.wr1rd0 == Sends(a.cs))
  }

  predicate RspAt(r: Response, a: Snap) {
    r.cs == a.rs && r.cntr == a.rcntr && r.cmdDone == a.cmdDone && r.clkVldQ == a.clk
  }

  /** Nothing else stirs. */
  predicate Still(e: Regs) {
    && e.m.tmr1 == 0 && !e.m.hit && H.NoFlag(e) && e.k == Recovery(RecIdle, false, false)
    && e.p.cs == P.Idle && !e.p.valid && !e.p.waitRd
  }

  predicate RecordAt(s: Sys, a: Snap) { |s.asked| == a.asked && s.received == a.received && s.unseen == a.unseen }

  predicate At(s: Sys, a: Snap) {
    CmdAt(s.e.c, a) && RspAt(s.e.r, a) && Still(s.e) && s.e.p.waitWr == a.waitWr && RecordAt(s, a)
  }

  // ---------------------------------------------------------------- one tick

  predicate Taken(a: Snap, k: Tick) { a.valid && k.ready }

  /** Words come only when asked for, and no cue does. */
  predicate Allowed(a: Snap, k: Tick) {
    && (k.rx ==> a.received < a.asked && a.received < 3 && a.rs != RspIdle)
    && !(Taken(a, k) && a.dcEn && (a.rs == RspCrc || a.rs == RspWait))
    && a.cs != Idle && a.cs != Boot && (a.valid || a.cs == CmdState.Start) && (a.cs == CmdState.Wait ==> a.waitWr)
  }

  function CmdMove(a: Snap, k: Tick): CmdState {
    if !Taken(a, k) then a.cs
    else match a.cs
         case Start => CmdState.Arg
         case Arg => if a.cntr % 4 == 0 then CmdState.Crc else CmdState.Arg
         case Crc => Dummy
         case Dummy => if a.cntr != 0 then Rsp else CmdState.Wait
         case Rsp => if a.rs == RspCrc then CmdState.Wait else Rsp
         case _ => a.cs
  }

  function CntrMove(a: Snap, k: Tick): nat {
    match a.cs
    case Start => a.cntr - a.cntr % 4
    case Arg => if Taken(a, k) then a.cntr - a.cntr % 4 else a.cntr
    case Crc => 2
    case Rsp => if Taken(a, k) && a.cntr > 0 then a.cntr - 1 else a.cntr
    case _ => a.cntr
  }

  predicate DcEnMove(a: Snap, k: Tick) {
    if !Taken(a, k) then a.dcEn
    else if a.cs == Dummy || a.cs == Rsp then a.cntr == 0
    else a.dcEn || a.cs == CmdState.Crc
  }

  function RspMove(a: Snap, k: Tick): RspState {
    match a.rs
    case RspIdle => if a.cmdDone then RspStart else RspIdle
    case RspStart => if k.rx && a.clk then RspArg else RspStart
    case RspArg => if k.rx && a.rcntr < 2 then RspCrc else RspArg
    case RspCrc => if k.rx then RspWait else RspCrc
    case RspWait => if k.clk then RspWait else RspIdle
  }

  /** The next row of a table is the one this tick leads to. */
  predicate CmdRow(a: Snap, k: Tick, b: Snap) {
    b.valid && b.cs == CmdMove(a, k) && b.cntr == CntrMove(a, k) && b.dcEn == DcEnMove(a, k)
  }

  predicate RspRow(a: Snap, k: Tick, b: Snap) {
    && b.rs == RspMove(a, k) && b.clk == k.clk
    && b.rcntr == (if a.rs == RspStart then 1
                   else if a.rs == RspArg && a.rcntr > 0 && k.rx then a.rcntr - 1 else a.rcntr)
    && b.cmdDone == (a.cs == Rsp && (a.cmdDone || (!k.clk && a.clk)))
  }

  predicate RecordRow(a: Snap, k: Tick, b: Snap) {
    && b.waitWr == (a.waitWr || a.cs == Rsp) && b.received == a.received + Bit(k.rx)
    && b.asked == a.asked + Bit(Taken(a, k) && !Sends(a.cs) && !a.dcEn)
    && b.unseen == a.unseen + Bit(k.rx && a.rs == RspStart && !a.clk)
  }

  predicate Row(a: Snap, k: Tick, b: Snap) { Allowed(a, k) && CmdRow(a, k, b) && RspRow(a, k, b) && RecordRow(a, k, b) }

  lemma SendMoves(t: Tables, s: Sys, a: Snap, k: Tick, b: Snap)
    requires At(s, a) && Allowed(a, k) && CmdRow(a, k, b) && Sends(a.cs)
    ensures CmdAt(Next(s.e, Inputs(t, k)).c, b)
  {
  }

  lemma TakeMoves(t: Tables, s: Sys, a: Snap, k: Tick, b: Snap)
    requires At(s, a) && Allowed(a, k) && CmdRow(a, k, b) && !Sends(a.cs)
    ensures CmdAt(Next(s.e, Inputs(t, k)).c, b)
  {
  }

  lemma ReceiverMoves(t: Tables, s: Sys, a: Snap, k: Tick, b: Snap)
    requires At(s, a) && RspRow(a, k, b)
    ensures RspAt(Next(s.e, Inputs(t, k)).r, b)
  {
  }

  lemma NothingStirs(t: Tables, s: Sys, a: Snap, k: Tick, b: Snap)
    requires At(s, a) && Allowed(a, k) && RecordRow(a, k, b)
    ensures Still(Next(s.e, Inputs(t, k))) && Next(s.e, Inputs(t, k)).p.waitWr == b.waitWr
  {
  }

  lemma RecordMoves(t: Tables, s: Sys, a: Snap, k: Tick, b: Snap)
    requires At(s, a) && Allowed(a, k) && RecordRow(a, k, b)
    ensures RecordAt(Step(s, Inputs(t, k)), b) && Legal(WRITE, RESPONSE, s, Inputs(t, k))
  {
  }

  lemma TickMoves(t: Tables, s: Sys, a: Snap, k: Tick, b: Snap)
    requires At(s, a) && Row(a, k, b)
    ensures At(Step(s, Inputs(t, k)), b) && Legal(WRITE, RESPONSE, s, Inputs(t, k))
  {
    if Sends(a.cs) { SendMoves(t, s, a, k, b); } else { TakeMoves(t, s, a, k, b); }
    ReceiverMoves(t, s, a, k, b);
    NothingStirs(t, s, a, k, b);
    RecordMoves(t, s, a, k, b);
  }

  /** A write that has just been taken up. */
  function Begin(): Sys {
    Sys(Regs(Cmd(CmdState.Start, true, false, 0, false, false, 0, ALL_ONES, false, 0, false),
             Response(RspIdle, 0, false, true), Timer(false, false, 0, false, 0, false, false),
             Recovery(RecIdle, false, false), Capture(0, 0x3F, ALL_ONES, ALL_ONES, ALL_ONES, ALL_ONES),
             P.Regs(P.Idle, 0, false, false, ALL_ONES, false, false, 0, 0, false, 0,
                    false, false, false, true, false, false, 0, false)), [], [], 0, 0)
  }

  lemma BeginIsFresh()
    ensures Fresh(Begin()) && At(Begin(), Head(0)) && Answers(WRITE, RESPONSE)
  {
  }

  // ---------------------------------------------------------------- the runs

  /** What becomes of the third beat, or of the first word. */
  datatype Kind = Stranding | Missing | Unseeing

  /** The token, the turnaround and two beats, while the CMD clock stops and, but for the last kind, starts again. */
  function Head(n: nat): Snap {
    match n
    case 0 => Snap(CmdState.Start, false, 0, false, RspIdle, 0, false, true, false, 0, 0, 0)
    case 1 => Snap(CmdState.Start, true, 0, false, RspIdle, 0, false, true, false, 0, 0, 0)
    case 2 => Snap(CmdState.Arg, true, 0, false, RspIdle, 0, false, true, false, 0, 0, 0)
    case 3 => Snap(CmdState.Crc, true, 0, false, RspIdle, 0, false, true, false, 0, 0, 0)
    case 4 => Snap(Dummy, true, 2, true, RspIdle, 0, false, true, false, 0, 0, 0)
    case 5 => Snap(Rsp, true, 2, false, RspIdle, 0, false, true, false, 0, 0, 0)
    case _ => Snap(Rsp, true, 1, false, RspIdle, 0, true, false, true, 1, 0, 0)
  }

  /** From the seventh clock on: the third beat is taken while the last word is awaited, but does not yet drive nothing,
      and none after it. */
  function StrandingTail(n: nat): Snap {
    match n
    case 7 => Snap(Rsp, true, 0, false, RspStart, 0, true, true, true, 2, 0, 0)
    case 8 => Snap(Rsp, true, 0, false, RspArg, 1, true, true, true, 2, 1, 0)
    case 9 => Snap(Rsp, true, 0, false, RspCrc, 0, true, true, true, 2, 2, 0)
    case 10 => Snap(CmdState.Wait, true, 0, true, RspCrc, 0, true, true, true, 3, 2, 0)
    case 11 => Snap(CmdState.Wait, true, 0, true, RspWait, 0, false, true, true, 3, 3, 0)
    case _ => Snap(CmdState.Wait, true, 0, true, RspIdle, 0, false, false, true, 3, 3, 0)
  }

  /** The third beat is taken before the first word. */
  function MissingTail(n: nat): Snap {
    match n
    case 7 => Snap(Rsp, true, 0, false, RspStart, 0, true, true, true, 2, 0, 0)
    case 8 => Snap(Rsp, true, 0, true, RspStart, 1, true, true, true, 3, 0, 0)
    case 9 => Snap(Rsp, true, 0, true, RspArg, 1, true, true, true, 3, 1, 0)
    case 10 => Snap(Rsp, true, 0, true, RspCrc, 0, true, true, true, 3, 2, 0)
    case _ => Snap(Rsp, true, 0, true, RspWait, 0, true, true, true, 3, 3, 0)
  }

  /** The first word finds the receiver without a clock. */
  function UnseeingTail(n: nat): Snap {
    match n
    case 7 => Snap(Rsp, true, 0, false, RspStart, 0, true, false, true, 2, 0, 0)
    case 8 => Snap(Rsp, true, 0, false, RspStart, 1, true, true, true, 2, 1, 1)
    case 9 => Snap(Rsp, true, 0, false, RspArg, 1, true, true, true, 2, 2, 1)
    case 10 => Snap(Rsp, true, 0, true, RspArg, 1, true, true, true, 3, 2, 1)
    case _ => Snap(Rsp, true, 0, true, RspCrc, 0, true, true, true, 3, 3, 1)
  }

  function Expect(r: Kind, n: nat): Snap {
    if n < 7 then Head(n)
    else match r
         case Stranding => StrandingTail(n)
         case Missing => MissingTail(n)
         case Unseeing => UnseeingTail(n)
  }

  function Length(r: Kind): nat { if r == Stranding then 12 else 11 }

  function TickAt(r: Kind, n: nat): Tick {
    var beat := if n < 7 then n > 0 else n == (match r case Stranding => 9 case Missing => 7 case Unseeing => 9);
    Tick(beat, n >= 7 && !beat && n < 11, if n == 6 then r != Unseeing else n != 5 && n != 11)
  }

  lemma TokenRows(r: Kind, n: nat)
    requires n < 4
    ensures Row(Expect(r, n), TickAt(r, n), Expect(r, n + 1))
  {
  }

  lemma TurnRows(r: Kind, n: nat)
    requires 4 <= n < 7
    ensures Row(Expect(r, n), TickAt(r, n), Expect(r, n + 1))
  {
  }

  lemma TailRows(r: Kind, n: nat)
    requires 7 <= n < Length(r)
    ensures Row(Expect(r, n), TickAt(r, n), Expect(r, n + 1))
  {
  }

  lemma OneMoreClock(t: Tables, ins: seq<Ins>, a: Snap, k: Tick, b: Snap) returns (zs: seq<Ins>)
    requires LegalRun(WRITE, RESPONSE, Begin(), ins) && At(Run(Begin(), ins), a) && Row(a, k, b)
    ensures LegalRun(WRITE, RESPONSE, Begin(), zs) && At(Run(Begin(), zs), b)
  {
    TickMoves(t, Run(Begin(), ins), a, k, b);
    RunOneMore(Begin(), ins, Inputs(t, k));
    zs := ins + [Inputs(t, k)];
  }

  lemma {:induction false} RunTo(t: Tables, r: Kind, n: nat) returns (ins: seq<Ins>)
    requires n <= Length(r)
    ensures LegalRun(WRITE, RESPONSE, Begin(), ins) && At(Run(Begin(), ins), Expect(r, n))
  {
    if n == 0 {
      BeginIsFresh();
      ins := [];
    } else {
      ins := RunTo(t, r, n - 1);
      if n <= 4 { TokenRows(r, n - 1); } else if n <= 7 { TurnRows(r, n - 1); } else { TailRows(r, n - 1); }
      ins := OneMoreClock(t, ins, Expect(r, n - 1), TickAt(r, n - 1), Expect(r, n));
    }
  }

  lemma StrandingEnds(z: Sys, n: nat)
    requires n == 12 && At(z, Expect(Stranding, n))
    ensures z.received == |Split(WRITE.rspTyp)| && z.unseen == 0 && z.e.c.cs == CmdState.Wait && Stranded(z.e)
  {
  }

  lemma MissingEnds(z: Sys, n: nat)
    requires n == 11 && At(z, Expect(Missing, n))
    ensures Missed(WRITE, z) && z.unseen == 0
  {
  }

  lemma UnseeingEnds(z: Sys, n: nat)
    requires n == 11 && At(z, Expect(Unseeing, n))
    ensures z.received == |Split(WRITE.rspTyp)| && z.unseen == 1 && z.e.r.cs == RspCrc
  {
  }

  /** A legal run in which every word of the response is seen and its end not missed, and which nothing ever ends. */
  lemma WriteIsStranded(t: Tables) returns (s: Sys, ins: seq<Ins>)
    ensures Fresh(s) && Answers(WRITE, RESPONSE) && LegalRun(WRITE, RESPONSE, s, ins) && Caught(s, ins)
    ensures var z := Run(s, ins); z.received == |Split(WRITE.rspTyp)| && z.unseen == 0 && AlwaysStranded(z.e)
  {
    s := Begin();
    BeginIsFresh();
    ins := RunTo(t, Stranding, 12);
    StrandingEnds(Run(s, ins), 12);
    LeavesIffCaught(WRITE, RESPONSE, s, ins);
    StrandedMeansAlways(Run(s, ins).e);
  }

  /** A legal run that misses the end of its response: all beats are taken before the first word. */
  lemma EndIsMissed(t: Tables) returns (s: Sys, ins: seq<Ins>)
    ensures Fresh(s) && Answers(WRITE, RESPONSE) && LegalRun(WRITE, RESPONSE, s, ins)
    ensures Missed(WRITE, Run(s, ins)) && Run(s, ins).unseen == 0
  {
    s := Begin();
    BeginIsFresh();
    ins := RunTo(t, Missing, 11);
    MissingEnds(Run(s, ins), 11);
  }

  /** A legal run in which all words have come, one unseen, and the receiver waits for one more. */
  lemma WordIsUnseen(t: Tables) returns (s: Sys, ins: seq<Ins>)
    ensures Fresh(s) && Answers(WRITE, RESPONSE) && LegalRun(WRITE, RESPONSE, s, ins)
    ensures var z := Run(s, ins); z.received == |Split(WRITE.rspTyp)| && z.unseen == 1 && z.e.r.cs == RspCrc
  {
    s := Begin();
    BeginIsFresh();
    ins := RunTo(t, Unseeing, 11);
    UnseeingEnds(Run(s, ins), 11);
  }
}
