/** From the end of one command to the beginning of the next: the engine in use again and again. */
module NextCommand {
  import opened Words
  import opened Geometry
  import opened CommandProc
  import opened Whole
  import E = Exchange
  import G = Progress
  import H = Handshake
  import L = ResponsePhase
  import P = Payload
  import R = ReadPath
  import S = Settling
  import T = Transfer
  import V = ReadProgress
  import W = WritePath

  /** The engine is done with a command: nothing in hand, no recovery, the response over and the data side quiet. */
  predicate Over(z: Sys) {
    && H.EngineInv(z.x.e) && H.Calm(z.x.e) && (z.x.e.r.cs == RspIdle || z.x.e.r.cs == RspWait)
    && S.Quiet(DataSide(z))
  }

  /** The registers hold the transfer to come, and both clocks of the card stand still. */
  predicate Lull(j: T.Job, e: Env) { e.csr.t == j.t && !e.pld.clkVld && !e.cmd.clkVld }

  /** Clocks one after another, in whatever state the engine is. */
  function Pass(j: T.Job, z: Sys, es: seq<Env>): Sys
    decreases |es|
  {
    if es == [] then z else Step(j, Pass(j, z, es[..|es| - 1]), es[|es| - 1])
  }

  /** The same registers with an empty record. */
  function Renewed(z: Sys): Sys {
    Sys(E.Sys(z.x.e, [], [], 0, 0), [], 0, 0, 0, false, [], T.Bus(z.bus.x, z.bus.rdAddr, z.bus.rdLeft, 0, 0, [], []))
  }

  // ---------------------------------------------------------------- the command half between commands

  /** How far the command half is back after n such clocks: the receiver idle, and, once the payload half has been in
      its idle state for a clock, that half not valid. */
  predicate Waiting(e: Regs, idle: bool) {
    && H.EngineInv(e) && H.Calm(e) && (e.r.cs == RspIdle || e.r.cs == RspWait)
    && (idle ==> e.r.cs == RspIdle && !e.r.cmdDone && !e.c.valid)
  }

  lemma WaitingClock(e: Regs, i: Ins, idle: bool)
    requires Waiting(e, idle) && !i.csr.start && !i.cmd.clkVld
    ensures Waiting(Next(e, i), true)
    ensures e.p.cs == P.Idle && !e.p.waitWr && !e.p.waitRd ==>
              Next(e, i).p.cs == P.Idle && !Next(e, i).p.valid
  {
    H.EngineKept(e, i);
    H.EngineMoves(e, i);
  }

  lemma StartingClocks(e: Regs, i: Ins, i': Ins)
    requires Waiting(e, true) && i.csr.start && !i.cmd.clkVld && !i'.cmd.clkVld && !i'.csr.boot
    ensures var f := Next(Next(e, i), i');
            && f.c.cs == Start && !f.c.valid && !f.c.dcEn && !f.c.crcEn && f.c.lastByte == 0
            && f.r.cs == RspIdle && !f.r.cmdDone && H.EngineInv(f) && f.k.cs == RecIdle && H.NoFlag(f)
  {
    H.EngineKept(e, i);
    H.EngineKept(Next(e, i), i');
    H.EngineMoves(e, i);
  }

  // ---------------------------------------------------------------- both halves

  lemma CoolClock(j: T.Job, z: Sys, e: Env, n: nat)
    requires 1 <= j.t.words && 1 <= j.t.numBlocks && S.Cooling(j, DataSide(z), n) && Lull(j, e) && z.x.e.c.cs == Idle
    ensures S.Cooling(j, DataSide(Step(j, z, e)), n + 1)
  {
  }

  /** After n such clocks. */
  predicate Cooled(j: T.Job, z: Sys, n: nat) {
    && S.Cooling(j, DataSide(z), n) && Waiting(z.x.e, n >= 1) && (n >= 4 ==> !z.x.e.p.valid)
  }

  lemma CooledClock(j: T.Job, z: Sys, e: Env, n: nat)
    requires 1 <= j.t.words && 1 <= j.t.numBlocks && Cooled(j, z, n) && Lull(j, e) && !e.csr.start
    ensures Cooled(j, Step(j, z, e), n + 1)
  {
    CoolClock(j, z, e, n);
    WaitingClock(z.x.e, Wired(z, e), n >= 1);
  }

  lemma {:induction false} CoolsDown(j: T.Job, z: Sys, es: seq<Env>)
    requires Sound(j.t) && Over(z) && forall e :: e in es ==> Lull(j, e) && !e.csr.start
    ensures Cooled(j, Pass(j, z, es), |es|)
    decreases |es|
  {
    if es != [] {
      var e := es[|es| - 1];
      assert e in es;
      CoolsDown(j, z, es[..|es| - 1]);
      CooledClock(j, Pass(j, z, es[..|es| - 1]), e, |es| - 1);
    }
  }

  /** A command for which everything begins as its theorems ask. */
  predicate Begins(j: T.Job, o: E.Order, z: Sys) {
    if j.isWrite then WriteBegins(j, o, z) else ReadBegins(j, o, z)
  }

  lemma StartClock(j: T.Job, z: Sys, e: Env, n: nat)
    requires Sound(j.t) && Cooled(j, z, n) && n >= 4 && Lull(j, e)
    ensures S.Cooling(j, DataSide(Step(j, z, e)), n + 1) && L.Resting(Step(j, z, e).x.e.p)
  {
    CoolClock(j, z, e, n);
  }

  /** The command half has just entered the first state of a command. */
  predicate Entered(e: Regs) {
    && e.c.cs == Start && !e.c.valid && !e.c.dcEn && !e.c.crcEn && e.c.lastByte == 0
    && e.r.cs == RspIdle && !e.r.cmdDone && H.EngineInv(e) && e.k.cs == RecIdle && H.NoFlag(e)
  }

  lemma EnteredBegins(j: T.Job, o: E.Order, z: Sys, n: nat)
    requires Sound(j.t) && Holds(j, o) && o.rspTyp != R0 && n >= 3 && S.Cooling(j, DataSide(z), n)
    requires Entered(z.x.e) && L.Resting(z.x.e.p)
    ensures Begins(j, o, Renewed(z))
  {
    S.CoolIsRest(j, DataSide(z));
  }

  lemma TwoClocks(j: T.Job, m: Sys, e1: Env, e2: Env, n: nat)
    requires Sound(j.t) && Cooled(j, m, n) && n >= 4
    requires Lull(j, e1) && e1.csr.start && Lull(j, e2) && !e2.csr.boot
    ensures var z := Step(j, Step(j, m, e1), e2);
            S.Cooling(j, DataSide(z), n + 2) && Entered(z.x.e) && L.Resting(z.x.e.p)
  {
    var f := Step(j, m, e1);
    StartClock(j, m, e1, n);
    StillClock(j, f, e2, n + 1);
    StartingClocks(m.x.e, Wired(m, e1), Wired(f, e2));
  }

  lemma StillClock(j: T.Job, z: Sys, e: Env, n: nat)
    requires Sound(j.t) && S.Cooling(j, DataSide(z), n) && n >= 4 && Lull(j, e)
    requires z.x.e.c.cs == Idle && L.Resting(z.x.e.p)
    ensures S.Cooling(j, DataSide(Step(j, z, e)), n + 1) && L.Resting(Step(j, z, e).x.e.p)
  {
    CoolClock(j, z, e, n);
  }

  /**
   * The next command: from the end of any command, after at least four clocks with the card's clocks standing still
   * and the new command's registers in place, a start begins that command, read or write, in the state its theorems
   * ask for. Nothing of the command before is left.
   */
  lemma NextBegins(j: T.Job, o: E.Order, z: Sys, es: seq<Env>, e1: Env, e2: Env)
    requires Sound(j.t) && Holds(j, o) && o.rspTyp != R0 && Over(z)
    requires |es| >= 4 && forall e :: e in es ==> Lull(j, e) && !e.csr.start
    requires Lull(j, e1) && e1.csr.start && Lull(j, e2) && !e2.csr.boot
    ensures Begins(j, o, Renewed(Step(j, Step(j, Pass(j, z, es), e1), e2)))
  {
    var m := Pass(j, z, es);
    CoolsDown(j, z, es);
    TwoClocks(j, m, e1, e2, |es|);
    EnteredBegins(j, o, Step(j, Step(j, m, e1), e2), |es| + 2);
  }

  // ---------------------------------------------------------------- what a command leaves

  /** The command has ended, the whole of its response has come and was counted, and no recovery is under way. */
  predicate Done(o: E.Order, r: Sys) {
    && r.x.e.c.cs == Idle && H.Calm(r.x.e) && r.started
    && r.x.unseen == 0 && r.x.received == |E.Split(o.rspTyp)|
  }

  lemma DoneIsOver(o: E.Order, r: Sys)
    requires Done(o, r) && H.EngineInv(r.x.e) && E.CountInv(o, r.x) && S.Quiet(DataSide(r)) && o.rspTyp != R0
    ensures Over(r)
  {
  }

  /** A write that ends leaves the engine ready for the next command. */
  lemma WriteLeaves(j: T.Job, o: E.Order, resp: seq<E.Octet>, z: Sys, es: seq<Env>)
    requires W.WriteJob(j) && E.Answers(o, resp) && WriteBegins(j, o, z) && LegalRun(j, o, resp, z, es)
    requires !L.Missed(o, Run(j, z, es).x) && Done(o, Run(j, z, es))
    ensures Over(Run(j, z, es))
  {
    var r := Run(j, z, es);
    RunIsBoth(j, o, resp, z, es);
    EngineRun(j, z, es);
    E.RunKeepsInv(o, resp, z.x, CommandRun(j, z, es));
    WriteRun(j, o, resp, z, es);
    G.RunningIsLegal(j, DataSide(z), DataRun(j, z, es));
    W.RunKeepsInv(j, DataSide(z), DataRun(j, z, es));
    S.FinishedIsQuiet(j, DataSide(r));
    DoneIsOver(o, r);
  }

  /** So does a read of one block. */
  lemma ReadLeaves(j: T.Job, o: E.Order, resp: seq<E.Octet>, z: Sys, es: seq<Env>)
    requires R.ReadJob(j) && j.t.numBlocks == 1 && E.Answers(o, resp) && ReadBegins(j, o, z)
    requires LegalRun(j, o, resp, z, es) && ServedRun(j, z, es) && L.ResponseFirst(o, z.x, CommandRun(j, z, es))
    requires !L.Missed(o, Run(j, z, es).x) && Done(o, Run(j, z, es))
    ensures Over(Run(j, z, es))
  {
    var r := Run(j, z, es);
    RunIsBoth(j, o, resp, z, es);
    EngineRun(j, z, es);
    E.RunKeepsInv(o, resp, z.x, CommandRun(j, z, es));
    ReadRun(j, o, resp, z, es);
    V.RunningIsLegal(j, DataSide(z), DataRun(j, z, es));
    R.OneBlockDrains(j, DataSide(z), DataRun(j, z, es));
    R.RunKeepsInv(j, DataSide(z), DataRun(j, z, es));
    S.FinishedIsQuiet(j, DataSide(r));
    DoneIsOver(o, r);
  }
}
