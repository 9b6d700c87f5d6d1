/** Once cued, a write command cannot hang on its own: every clock on which nobody outside stalls does work. */
module Progress {
  import opened Arith
  import opened Words
  import opened Geometry
  import opened Transfer
  import opened WritePath
  import P = Payload
  import X = AxiManager

  /** Legal, and the command half stays out of idle while its data moves. */
  predicate Running(l: Line, i: P.Ins) { Legal(l, i) && !i.cmdIdle && !i.readCmd }

  /**
   * The SERDES and the card do what a cued line side is waiting for: take the beat, end the response, answer the
   * block and release the line, or stop the data clock.
   */
  predicate LineCooperative(l: Line, i: P.Ins) {
    match l.p.cs
    case Rsp =>
      if !l.p.xferDone then i.rxValid && i.rxEnd
      else if !l.p.checkBusy then i.rxValid
      else l.p.lineFree
    case Wait => !i.clkVld
    case _ => i.ready
  }

  /** The memory does what the bus side is waiting for: take the address, or deliver a word. */
  predicate BusCooperative(b: Bus, arready: bool, rvalid: bool) {
    (b.x.cs == X.Read ==> arready) && (b.x.cs == X.Done ==> rvalid)
  }

  /** Nobody outside the engine keeps it waiting on this clock. */
  predicate Cooperative(j: Job, s: Sys, e: Env) {
    LineCooperative(s.line, PIns(j, s, e)) && BusCooperative(s.bus, e.arready, e.rvalid)
  }

  /** Work left on the line side; a block weighs its words plus its fixed phases. */
  function LineRank(j: Job, l: Line, popped: nat, memAvail: bool): int {
    var K := j.t.words + 13;
    var left := (j.t.numBlocks - l.p.blkCntr) * K;
    match l.p.cs
    case Idle => left - 2 + Bit(!memAvail)
    case Start => left - 3
    case Data => left - 4 - (popped - First(j, l.p.blkCntr))
    case Crc => left + 8
    case Dummy => left + 7 - l.p.dcNum % 2
    case Rsp => left + 5 - Bit(l.p.xferDone) - Bit(l.p.checkBusy)
    case Wait => left + 2
  }

  /** Work left on the bus side; a word weighs two, one to arrive and one to be stored. */
  function BusRank(j: Job, b: Bus): int {
    var left := (j.t.numBlocks - b.x.blkCntr) * (2 * j.t.words + 3);
    match b.x.cs
    case Idle => j.t.numBlocks * (2 * j.t.words + 3) + 3
    case Wait => left + Bit(b.x.fifoWren) + (if b.x.allDone && b.x.blkCntr == 0 then 1 else 0)
    case Read => left + Bit(b.x.fifoWren) - 1
    case _ => left + 2 * b.rdLeft + Bit(b.x.fifoWren)
  }

  function Rank(j: Job, s: Sys): int {
    LineRank(j, s.line, s.bus.popped, s.bus.x.memAvail) + BusRank(j, s.bus)
  }

  /** The line side stands still only in front of a FIFO that lacks a whole block. */
  predicate Starved(l: Line, j: Job, shown: nat, memAvail: bool) {
    l.p.cs == P.Idle && l.p.valid && !memAvail && shown < j.t.words
  }

  /** The line's work never grows, and shrinks unless it is stalled or waiting for a block. */
  ghost predicate LineProgress(j: Job, l: Line, i: P.Ins, popped: nat, shown: nat) {
    var before := LineRank(j, l, popped, i.memAvail);
    var after := LineRank(j, LineNext(j, l, i), popped + Taken(l, i), shown >= j.t.words);
    after <= before - Bit(LineCooperative(l, i) && !Starved(l, j, shown, i.memAvail))
  }

  lemma HeadWorks(j: Job, l: Line, i: P.Ins, popped: nat, shown: nat)
    requires WriteJob(j) && Shown(j, l, i, popped, shown) && Running(l, i)
    requires l.p.valid && (l.p.cs == P.Idle || l.p.cs == P.Start || l.p.cs == P.Data)
    ensures LineProgress(j, l, i, popped, shown)
  {
  }

  lemma TailWorks(j: Job, l: Line, i: P.Ins, popped: nat, shown: nat)
    requires WriteJob(j) && Shown(j, l, i, popped, shown) && Running(l, i)
    requires l.p.cs != P.Idle && l.p.cs != P.Start && l.p.cs != P.Data
    ensures LineProgress(j, l, i, popped, shown)
  {
  }

  /** The bus has nothing left to do for this command. */
  predicate BusSpent(j: Job, b: Bus) {
    b.x.cs == X.Wait && b.x.blkCntr == j.t.numBlocks && !b.x.fifoWren
  }

  /** The bus's work never grows, and shrinks unless it is stalled, full or done. */
  ghost predicate BusProgress(j: Job, b: Bus, i: X.Ins) {
    BusRank(j, BusNext(j, b, i)) <=
    BusRank(j, b) - Bit(BusCooperative(b, i.arready, i.rvalid) && X.RReady(j.t, b.x) && !BusSpent(j, b))
  }

  lemma BurstWorks(j: Job, b: Bus, i: X.Ins)
    requires WriteJob(j) && FifoInv(j, b) && BusInv(j, b) && Fetching(j, b, i) && b.x.cs == X.Done
    ensures BusProgress(j, b, i)
  {
  }

  lemma RequestWorks(j: Job, b: Bus, i: X.Ins)
    requires WriteJob(j) && FifoInv(j, b) && BusInv(j, b) && Fetching(j, b, i) && b.x.cs == X.Read
    ensures BusProgress(j, b, i)
  {
    OneLess(j.t.numBlocks, b.x.blkCntr, 2 * j.t.words + 3);
  }

  lemma WaitWorks(j: Job, b: Bus, i: X.Ins)
    requires WriteJob(j) && FifoInv(j, b) && BusInv(j, b) && Fetching(j, b, i)
    requires b.x.cs == X.Wait || b.x.cs == X.Idle
    ensures BusProgress(j, b, i)
  {
  }

  /** The two sides are never both stuck: a starved line leaves room in the FIFO and words to fetch. */
  lemma NeverBothStuck(j: Job, s: Sys)
    requires WriteJob(j) && Active(j, s)
    requires Starved(s.line, j, |s.bus.x.fifo|, s.bus.x.memAvail)
    ensures X.RReady(j.t, s.bus.x) && !BusSpent(j, s.bus)
  {
    var b := s.line.p.blkCntr;
    FirstMonotone(j, b + 1, j.t.numBlocks);
  }

  lemma LineWorks(j: Job, s: Sys, e: Env)
    requires WriteJob(j) && Active(j, s) && Running(s.line, PIns(j, s, e))
    requires s.line.p.valid && LineNext(j, s.line, PIns(j, s, e)).p.waitWr
    ensures LineProgress(j, s.line, PIns(j, s, e), s.bus.popped, |s.bus.x.fifo|)
  {
    HeadShown(j, s, e);
    if s.line.p.cs == P.Idle || s.line.p.cs == P.Start || s.line.p.cs == P.Data {
      HeadWorks(j, s.line, PIns(j, s, e), s.bus.popped, |s.bus.x.fifo|);
    } else {
      TailWorks(j, s.line, PIns(j, s, e), s.bus.popped, |s.bus.x.fifo|);
    }
  }

  lemma BusWorks(j: Job, s: Sys, e: Env)
    requires WriteJob(j) && Active(j, s)
    ensures
      BusRank(j, BusNext(j, s.bus, XIns(j, s, e))) <= BusRank(j, s.bus)
        - Bit(BusCooperative(s.bus, e.arready, e.rvalid) && X.RReady(j.t, s.bus.x) && !BusSpent(j, s.bus))
  {
    PopFindsData(j, s.line, PIns(j, s, e), s.bus.popped, |s.bus.x.fifo|);
    var xi := XIns(j, s, e);
    if s.bus.x.cs == X.Done {
      BurstWorks(j, s.bus, xi);
    } else if s.bus.x.cs == X.Read {
      RequestWorks(j, s.bus, xi);
    } else {
      WaitWorks(j, s.bus, xi);
    }
  }

  /** The two sides' progress adds up; at least one of them makes it on a cooperative clock. */
  lemma RanksAdd(j: Job, s: Sys, e: Env)
    requires WriteJob(j)
    requires LineProgress(j, s.line, PIns(j, s, e), s.bus.popped, |s.bus.x.fifo|)
    requires var b' := BusNext(j, s.bus, XIns(j, s, e));
             && b'.popped == s.bus.popped + Taken(s.line, PIns(j, s, e))
             && b'.x.memAvail == (|s.bus.x.fifo| >= j.t.words)
             && BusRank(j, b') <= BusRank(j, s.bus)
                  - Bit(BusCooperative(s.bus, e.arready, e.rvalid) && X.RReady(j.t, s.bus.x) && !BusSpent(j, s.bus))
    requires Starved(s.line, j, |s.bus.x.fifo|, s.bus.x.memAvail) ==> X.RReady(j.t, s.bus.x) && !BusSpent(j, s.bus)
    ensures Rank(j, Step(j, s, e)) <= Rank(j, s) - Bit(Cooperative(j, s, e))
  {
  }

  /** The cue lasts: the payload half stays valid until the command is over. */
  lemma CueLasts(j: Job, l: Line, i: P.Ins, popped: nat, shown: nat, memAvail: bool)
    requires WriteJob(j) && LineInv(j, l, popped, shown, memAvail) && Running(l, i) && l.p.valid
    ensures LineNext(j, l, i).p.valid
  {
  }

  lemma Works(j: Job, s: Sys, e: Env)
    requires WriteJob(j) && Active(j, s) && Running(s.line, PIns(j, s, e))
    requires s.line.p.valid && LineNext(j, s.line, PIns(j, s, e)).p.waitWr
    ensures Rank(j, Step(j, s, e)) <= Rank(j, s) - Bit(Cooperative(j, s, e))
  {
    LineWorks(j, s, e);
    BusWorks(j, s, e);
    BusMiddle(j, s, e);
    if Starved(s.line, j, |s.bus.x.fifo|, s.bus.x.memAvail) { NeverBothStuck(j, s); }
    RanksAdd(j, s, e);
  }

  lemma LineRankPositive(j: Job, l: Line, popped: nat, shown: nat, memAvail: bool)
    requires WriteJob(j) && LineInv(j, l, popped, shown, memAvail)
    ensures 0 < LineRank(j, l, popped, memAvail)
  {
    if l.p.blkCntr < j.t.numBlocks { ProductPositive(j.t.numBlocks - l.p.blkCntr, j.t.words + 13); }
  }

  lemma BusRankPositive(j: Job, b: Bus)
    requires WriteJob(j) && BusInv(j, b)
    ensures 0 <= BusRank(j, b)
  {
    if b.x.cs == X.Idle {
      ProductPositive(j.t.numBlocks, 2 * j.t.words + 3);
    } else if b.x.cs == X.Read {
      ProductPositive(j.t.numBlocks - b.x.blkCntr, 2 * j.t.words + 3);
    } else {
      ProductPositive(j.t.numBlocks - b.x.blkCntr, 2 * j.t.words + 3);
    }
  }

  /** More work than a command of N blocks of L words ever has left. */
  function Bound(t: Tables): nat { t.numBlocks * (3 * t.words + 16) + 3 }

  lemma LineRankBound(j: Job, l: Line, popped: nat, shown: nat, memAvail: bool)
    requires WriteJob(j) && LineInv(j, l, popped, shown, memAvail)
    ensures LineRank(j, l, popped, memAvail) < j.t.numBlocks * (j.t.words + 13)
  {
    Remaining(j.t.numBlocks, l.p.blkCntr, j.t.words + 13);
  }

  lemma BusRankBound(j: Job, b: Bus)
    requires WriteJob(j) && BusInv(j, b)
    ensures BusRank(j, b) <= j.t.numBlocks * (2 * j.t.words + 3) + 3
  {
    if b.x.cs != X.Idle { Remaining(j.t.numBlocks, b.x.blkCntr, 2 * j.t.words + 3); }
  }

  lemma BoundParts(n: nat, w: nat)
    ensures n * (w + 13) + n * (2 * w + 3) == n * (3 * w + 16)
  {
  }

  lemma RankBound(j: Job, s: Sys)
    requires WriteJob(j) && Active(j, s)
    ensures Rank(j, s) < Bound(j.t)
  {
    LineRankBound(j, s.line, s.bus.popped, |s.bus.x.fifo|, s.bus.x.memAvail);
    BusRankBound(j, s.bus);
    BoundParts(j.t.numBlocks, j.t.words);
  }

  // ---------------------------------------------------------------- whole runs

  /** Legal throughout, with the command half out of idle while the data moves. */
  ghost predicate RunningRun(j: Job, s: Sys, es: seq<Env>)
    decreases |es|
  {
    es == [] ||
    (var last := |es| - 1;
     var m := Run(j, s, es[..last]);
     && RunningRun(j, s, es[..last])
     && Legal(m.line, PIns(j, m, es[last]))
     && (m.line.p.waitWr ==> !es[last].cmdIdle))
  }

  lemma RunningOneMore(j: Job, s: Sys, es: seq<Env>, e: Env)
    requires var m := Run(j, s, es);
             RunningRun(j, s, es) && Legal(m.line, PIns(j, m, e)) && (m.line.p.waitWr ==> !e.cmdIdle)
    ensures RunningRun(j, s, es + [e])
  {
    RunOneMore(j, s, es, e);
  }

  /** How many clocks of a run, once the command was cued, were cooperative. */
  function CooperativeClocks(j: Job, s: Sys, es: seq<Env>): nat
    decreases |es|
  {
    if es == [] then 0
    else
      var m := Run(j, s, es[..|es| - 1]);
      CooperativeClocks(j, s, es[..|es| - 1])
      + Bit(m.line.p.waitWr && m.line.p.valid && Cooperative(j, m, es[|es| - 1]))
  }

  /** Where a run has got to: nothing counts before the cue, and after it what was done pays for the work left. */
  ghost predicate OnTime(j: Job, s: Sys, done: nat) {
    && Inv(j, s)
    && (s.line.p.waitWr && s.line.p.valid ==> done + Rank(j, s) < Bound(j.t))
    && (s.line.p.waitWr && !s.line.p.valid ==> done == 0)
    && (!s.line.started ==> done == 0)
  }

  lemma StaysOnTime(j: Job, s: Sys, e: Env, done: nat)
    requires WriteJob(j) && OnTime(j, s, done) && Legal(s.line, PIns(j, s, e))
    requires s.line.p.waitWr ==> !e.cmdIdle
    ensures OnTime(j, Step(j, s, e), done + Bit(s.line.p.waitWr && s.line.p.valid && Cooperative(j, s, e)))
  {
    var z := Step(j, s, e);
    if s.line.p.waitWr {
      ActiveStep(j, s, e);
      if s.line.p.valid && z.line.p.waitWr {
        CueLasts(j, s.line, PIns(j, s, e), s.bus.popped, |s.bus.x.fifo|, s.bus.x.memAvail);
        Works(j, s, e);
      }
    } else if s.line.started {
      FinishedStep(j, s, e);
    } else {
      RestStep(j, s, e);
    }
    if z.line.p.waitWr { RankBound(j, z); }
  }

  lemma {:induction false} WorkIsBounded(j: Job, s: Sys, es: seq<Env>)
    requires WriteJob(j) && Rest(s) && RunningRun(j, s, es)
    ensures OnTime(j, Run(j, s, es), CooperativeClocks(j, s, es))
    decreases |es|
  {
    if es != [] {
      WorkIsBounded(j, s, es[..|es| - 1]);
      StaysOnTime(j, Run(j, s, es[..|es| - 1]), es[|es| - 1], CooperativeClocks(j, s, es[..|es| - 1]));
    }
  }

  lemma TimeIsUp(j: Job, s: Sys, done: nat)
    requires WriteJob(j) && OnTime(j, s, done) && done >= Bound(j.t)
    ensures Finished(j, s)
  {
    ProductPositive(j.t.numBlocks, 3 * j.t.words + 16);
    if s.line.p.waitWr {
      LineRankPositive(j, s.line, s.bus.popped, |s.bus.x.fifo|, s.bus.x.memAvail);
      BusRankPositive(j, s.bus);
    }
  }

  /**
   * However the stalls fall, a write command of N blocks of L words has finished, everything sent, once it was cued
   * and nobody kept the engine waiting on N * (3L + 16) + 3 clocks since.
   */
  lemma Completes(j: Job, s: Sys, es: seq<Env>)
    requires WriteJob(j) && Rest(s) && RunningRun(j, s, es)
    requires CooperativeClocks(j, s, es) >= Bound(j.t)
    ensures Finished(j, Run(j, s, es))
  {
    WorkIsBounded(j, s, es);
    TimeIsUp(j, Run(j, s, es), CooperativeClocks(j, s, es));
  }

  // ---------------------------------------------------------------- a finishing run exists

  /**
   * A clock on which everybody does its part and no more: the card answers only when asked, with one end mark
   * per block, and the data clock runs until the line side waits for it to stop.
   */
  function Smooth(s: Sys, starting: bool): Env {
    Env(ready := true,
        rx := s.line.p.cs == P.Rsp && !(s.line.p.xferDone && s.line.p.checkBusy), rxEnd := !s.line.p.xferDone,
        datLine := true, clkVld := s.line.p.cs != P.Wait,
        cmdIdle := false, cmdRsp := starting, cmdWait := !starting, kick := !s.line.p.valid, restart := false,
        arready := s.bus.x.cs == X.Read, rvalid := s.bus.x.cs == X.Done, awready := false, wready := false)
  }

  lemma FirstClock(j: Job, s: Sys)
    requires WriteJob(j) && Rest(s)
    ensures Legal(s.line, PIns(j, s, Smooth(s, true)))
    ensures Smoothly(Step(j, s, Smooth(s, true)), 0, 1)
  {
  }

  lemma SecondClock(j: Job, s: Sys)
    requires j.isWrite && Smoothly(s, 0, 1)
    ensures Legal(s.line, PIns(j, s, Smooth(s, false))) && Smoothly(Step(j, s, Smooth(s, false)), 0, 2)
  {
  }

  lemma LaterClock(j: Job, s: Sys, done: nat, n: nat)
    requires WriteJob(j) && n >= 2 && Smoothly(s, done, n) && Inv(j, s)
    ensures Cooperative(j, s, Smooth(s, false)) && Legal(s.line, PIns(j, s, Smooth(s, false)))
    ensures Smoothly(Step(j, s, Smooth(s, false)), done + Bit(s.line.p.waitWr), n + 1)
  {
    if !s.line.p.waitWr { FinishedStep(j, s, Smooth(s, false)); }
  }

  /** The smooth run after n clocks: the response phase on the first, the cue on the second, and all since count. */
  predicate Smoothly(s: Sys, done: nat, n: nat) {
    && !s.line.p.waitRd && s.line.started && s.line.p.lineFree
    && (n == 1 ==> s.line.p.waitWr && s.line.p.cs == P.Idle)
    && (n >= 2 ==> s.line.p.valid && (s.line.p.waitWr ==> done >= n - 2))
  }

  lemma OneMoreLater(j: Job, s: Sys, es: seq<Env>, n: nat) returns (zs: seq<Env>)
    requires WriteJob(j) && Rest(s) && RunningRun(j, s, es) && |es| == n >= 2
    requires Smoothly(Run(j, s, es), CooperativeClocks(j, s, es), n)
    ensures RunningRun(j, s, zs) && |zs| == n + 1 && Smoothly(Run(j, s, zs), CooperativeClocks(j, s, zs), n + 1)
  {
    var m := Run(j, s, es);
    RunningIsLegal(j, s, es);
    RunKeepsInv(j, s, es);
    LaterClock(j, m, CooperativeClocks(j, s, es), n);
    zs := es + [Smooth(m, false)];
    RunOneMore(j, s, es, Smooth(m, false));
  }

  lemma Cueing(j: Job, s: Sys) returns (es: seq<Env>)
    requires WriteJob(j) && Rest(s)
    ensures RunningRun(j, s, es) && |es| == 2 && Smoothly(Run(j, s, es), CooperativeClocks(j, s, es), 2)
  {
    var e := Smooth(s, true);
    FirstClock(j, s);
    RunOneMore(j, s, [], e);
    es := [] + [e];
    var m := Run(j, s, es);
    SecondClock(j, m);
    RunOneMore(j, s, es, Smooth(m, false));
    es := es + [Smooth(m, false)];
  }

  lemma {:induction false} SmoothRun(j: Job, s: Sys, n: nat) returns (es: seq<Env>)
    requires WriteJob(j) && Rest(s) && n >= 2
    ensures RunningRun(j, s, es) && |es| == n && Smoothly(Run(j, s, es), CooperativeClocks(j, s, es), n)
  {
    if n == 2 {
      es := Cueing(j, s);
    } else {
      es := SmoothRun(j, s, n - 1);
      es := OneMoreLater(j, s, es, n - 1);
    }
  }

  lemma {:induction false} RunningIsLegal(j: Job, s: Sys, es: seq<Env>)
    requires RunningRun(j, s, es)
    ensures LegalRun(j, s, es)
    decreases |es|
  {
    if es != [] { RunningIsLegal(j, s, es[..|es| - 1]); }
  }

  /** From rest, every write command has a legal run that finishes it: the two machines cannot lock each other up. */
  lemma EveryWriteCanFinish(j: Job, s: Sys) returns (es: seq<Env>)
    requires WriteJob(j) && Rest(s)
    ensures LegalRun(j, s, es) && Finished(j, Run(j, s, es))
    ensures |es| == Bound(j.t) + 2
  {
    es := SmoothRun(j, s, Bound(j.t) + 2);
    RunningIsLegal(j, s, es);
    RunKeepsInv(j, s, es);
    if Run(j, s, es).line.p.waitWr { Completes(j, s, es); }
  }
}
