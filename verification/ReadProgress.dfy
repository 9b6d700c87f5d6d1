/** A read command whose bursts drain cannot hang on its own: every clock on which nobody outside stalls does work. */
module ReadProgress {
  import opened Arith
  import opened Words
  import opened Geometry
  import opened Transfer
  import opened ReadPath
  import P = Payload
  import X = AxiManager

  /** Legal, and the command half waits for the data, as it does while a wait flag is up. */
  predicate Running(l: Line, i: P.Ins) { Legal(l, i) && !i.cmdIdle && (i.cmdRsp || i.cmdWait) && i.readCmd }

  /** The SERDES does what the line side is waiting for: take the beat, deliver what it owes, or stop its clock. */
  predicate LineCooperative(l: Line, i: P.Ins) {
    match l.p.cs
    case Idle => true
    case Wait => if l.owed > 0 then i.rxValid else !i.clkVld
    case _ => i.ready
  }

  /** The memory does what the bus side is waiting for: take the address, or a word. */
  predicate BusCooperative(b: Bus, awready: bool, wready: bool) {
    (b.x.cs == X.Write ==> awready) && (b.x.cs == X.Done ==> wready)
  }

  predicate Cooperative(j: Job, s: Sys, e: Env) {
    LineCooperative(s.line, PIns(j, s, e)) && BusCooperative(s.bus, e.awready, e.wready)
  }

  // ---------------------------------------------------------------- work left

  /** Work left on the line side; what the SERDES owes weighs two, one to deliver and one to store. */
  function LineRank(j: Job, l: Line, memFree: bool): int {
    var L := j.t.words;
    var left := (j.t.numBlocks - l.p.blkCntr) * (3 * L + 9) + 2 * Due(l);
    match l.p.cs
    case Idle => left + Bit(!memFree)
    case Start => left - 1
    case Data => left - 3 * L - 3 + (if l.p.last then 0 else l.p.cntr / 4)
    case Crc => left + 5
    case Dummy => left + 4 - l.p.dcNum % 2
    case _ => left + 2
  }

  /** Work left on the bus side; a word weighs two, one to be queued and one to be taken. */
  function BusRank(j: Job, b: Bus): int {
    var flow := 2 * (First(j, j.t.numBlocks) - b.popped) + |b.x.queue| + Bit(b.x.fifoWren);
    var left := 3 * (j.t.numBlocks - b.x.blkCntr);
    match b.x.cs
    case Idle => flow + 3 * j.t.numBlocks + 4
    case Wait => flow + left + Bit(!b.x.gteqAxlen && b.x.blkCntr < j.t.numBlocks) + 2 * Bit(StaleDone(b))
    case Write => flow + left - 1
    case _ => flow + left + 1
  }

  function Rank(j: Job, s: Sys): int { LineRank(j, s.line, s.bus.x.memFree) + BusRank(j, s.bus) }

  /** The line side waits for the bus: for room, or for the last word to be written. */
  predicate LineBlocked(j: Job, l: Line, shown: nat, memFree: bool) {
    || (l.p.cs == P.Idle && !memFree && shown > j.t.words)
    || (l.p.cs == P.Wait && l.owed == 0 && l.p.allDone)
  }

  /** The bus side waits for the line: for a block, for a word, or for the next command. */
  predicate BusBlocked(j: Job, b: Bus) {
    && !b.x.fifoWren
    && match b.x.cs
       case Wait =>
         if b.x.allDone then b.x.blkCntr == j.t.numBlocks else !b.x.gteqAxlen && |b.x.fifo| < j.t.words - 1
       case Done => b.x.queue == [] && b.x.fifo == []
       case _ => false
  }

  /** The line's work pays for the word it hands over, and shrinks unless it is stalled or waiting for the bus. */
  ghost predicate LineProgress(j: Job, l: Line, i: P.Ins, shown: nat) {
    LineRank(j, LineNext(j, l, i), shown <= j.t.words) + Bit(P.MemWren(l.p, i)) <=
    LineRank(j, l, i.memFree) - Bit(LineCooperative(l, i) && !LineBlocked(j, l, shown, i.memFree))
  }

  lemma HeadWorks(j: Job, l: Line, i: P.Ins, shown: nat)
    requires ReadJob(j) && LineInv(j, l, shown, i.memFree) && Running(l, i)
    requires l.p.cs == P.Idle || l.p.cs == P.Start || l.p.cs == P.Wait
    requires LineNext(j, l, i).p.waitRd
    ensures LineProgress(j, l, i, shown)
  {
  }

  lemma TailWorks(j: Job, l: Line, i: P.Ins, shown: nat)
    requires ReadJob(j) && LineInv(j, l, shown, i.memFree) && Running(l, i)
    requires l.p.cs == P.Data || l.p.cs == P.Crc || l.p.cs == P.Dummy
    ensures LineProgress(j, l, i, shown)
  {
    OneLess(j.t.numBlocks, l.p.blkCntr, 3 * j.t.words + 9);
  }

  lemma LineWorks(j: Job, l: Line, i: P.Ins, shown: nat)
    requires ReadJob(j) && LineInv(j, l, shown, i.memFree) && Running(l, i)
    requires LineNext(j, l, i).p.waitRd
    ensures LineProgress(j, l, i, shown)
  {
    if l.p.cs == P.Idle || l.p.cs == P.Start || l.p.cs == P.Wait {
      HeadWorks(j, l, i, shown);
    } else {
      TailWorks(j, l, i, shown);
    }
  }

  ghost predicate BusProgress(j: Job, b: Bus, i: X.Ins) {
    BusRank(j, BusNext(j, b, i)) <=
    BusRank(j, b) + Bit(i.procWren) - Bit(BusCooperative(b, i.awready, i.wready) && !BusBlocked(j, b))
  }

  /** What the bus sees of a command that fills the FIFO. */
  predicate Filling(b: Bus, i: X.Ins) { i.memRd && !i.memWr && !i.rvalid && !i.procRden }

  lemma WaitWorks(j: Job, b: Bus, i: X.Ins, received: nat, owed: nat)
    requires ReadJob(j) && FifoInv(j, b, received, owed) && BusInv(j, b) && Filling(b, i)
    requires b.x.cs == X.Wait || b.x.cs == X.Idle
    ensures BusProgress(j, b, i)
  {
  }

  lemma BurstWorks(j: Job, b: Bus, i: X.Ins, received: nat, owed: nat)
    requires ReadJob(j) && FifoInv(j, b, received, owed) && BusInv(j, b) && Filling(b, i)
    requires b.x.cs == X.Write || b.x.cs == X.Done
    ensures BusProgress(j, b, i)
  {
  }

  lemma BusWorks(j: Job, b: Bus, i: X.Ins, received: nat, owed: nat)
    requires ReadJob(j) && FifoInv(j, b, received, owed) && BusInv(j, b) && Filling(b, i)
    ensures BusProgress(j, b, i)
  {
    if b.x.cs == X.Write || b.x.cs == X.Done {
      BurstWorks(j, b, i, received, owed);
    } else {
      WaitWorks(j, b, i, received, owed);
    }
  }

  /** The two sides never wait for each other, short of the end. */
  lemma NeverBothBlocked(j: Job, s: Sys)
    requires ReadJob(j) && Active(j, s) && LineBlocked(j, s.line, |s.bus.x.fifo|, s.bus.x.memFree)
    requires s.line.p.cs == P.Wait ==> !X.ReqDone(s.bus.x)
    ensures !BusBlocked(j, s.bus)
  {
    var N, k := j.t.numBlocks, s.bus.x.blkCntr;
    if s.bus.x.cs == X.Done {
      FirstMonotone(j, k, N);
      assert First(j, k) == First(j, k - 1) + j.t.words;
    } else if s.line.p.cs == P.Idle {
      FirstMonotone(j, s.line.p.blkCntr, N);
    } else if s.bus.x.cs == X.Wait && k < N {
      FirstMonotone(j, k + 1, N);
      assert First(j, k + 1) == First(j, k) + j.t.words;
    }
  }

  lemma Works(j: Job, s: Sys, e: Env)
    requires ReadJob(j) && Active(j, s) && Running(s.line, PIns(j, s, e))
    requires LineNext(j, s.line, PIns(j, s, e)).p.waitRd
    ensures Rank(j, Step(j, s, e)) <= Rank(j, s) - Bit(Cooperative(j, s, e))
  {
    LineWorks(j, s.line, PIns(j, s, e), |s.bus.x.fifo|);
    BusWorks(j, s.bus, XIns(j, s, e), s.line.received, Due(s.line));
    if LineBlocked(j, s.line, |s.bus.x.fifo|, s.bus.x.memFree) { NeverBothBlocked(j, s); }
  }

  lemma LineRankPositive(j: Job, l: Line, shown: nat, memFree: bool)
    requires ReadJob(j) && LineInv(j, l, shown, memFree)
    ensures 0 < LineRank(j, l, memFree)
  {
    ProductPositive(j.t.numBlocks - l.p.blkCntr, 3 * j.t.words + 9);
  }

  lemma BusRankPositive(j: Job, b: Bus)
    requires ReadJob(j) && BusInv(j, b)
    ensures 0 <= BusRank(j, b)
  {
    if b.x.cs == X.Write {
      FirstMonotone(j, b.x.blkCntr + 1, j.t.numBlocks);
    } else if b.x.cs != X.Idle {
      FirstMonotone(j, b.x.blkCntr, j.t.numBlocks);
    }
  }

  // ---------------------------------------------------------------- whole runs

  /** Legal throughout, with the command half waiting while the data moves. */
  ghost predicate RunningRun(j: Job, s: Sys, es: seq<Env>)
    decreases |es|
  {
    es == [] ||
    (var last := |es| - 1;
     var m := Run(j, s, es[..last]);
     && RunningRun(j, s, es[..last])
     && Legal(m.line, PIns(j, m, es[last]))
     && (m.line.p.waitRd ==> !es[last].cmdIdle && (es[last].cmdRsp || es[last].cmdWait)))
  }

  lemma RunningOneMore(j: Job, s: Sys, es: seq<Env>, e: Env)
    requires var m := Run(j, s, es);
             && RunningRun(j, s, es) && Legal(m.line, PIns(j, m, e))
             && (m.line.p.waitRd ==> !e.cmdIdle && (e.cmdRsp || e.cmdWait))
    ensures RunningRun(j, s, es + [e])
  {
    RunOneMore(j, s, es, e);
  }

  lemma {:induction false} RunningIsLegal(j: Job, s: Sys, es: seq<Env>)
    requires RunningRun(j, s, es)
    ensures LegalRun(j, s, es)
    decreases |es|
  {
    if es != [] { RunningIsLegal(j, s, es[..|es| - 1]); }
  }

  /** How many clocks of a run, once the data phase was on, were cooperative. */
  function CooperativeClocks(j: Job, s: Sys, es: seq<Env>): nat
    decreases |es|
  {
    if es == [] then 0
    else
      var m := Run(j, s, es[..|es| - 1]);
      CooperativeClocks(j, s, es[..|es| - 1]) + Bit(m.line.p.waitRd && Cooperative(j, m, es[|es| - 1]))
  }

  /** More work than a command of N blocks of L words ever has left. */
  function Bound(t: Tables): nat { t.numBlocks * (5 * t.words + 12) + 6 }

  /** The work of a command that has just started. */
  lemma StartRank(j: Job, s: Sys, e: Env)
    requires ReadJob(j) && Rest(s) && Settled(j, s.bus) && Legal(s.line, PIns(j, s, e))
    requires Step(j, s, e).line.p.waitRd
    ensures Rank(j, Step(j, s, e)) < Bound(j.t)
  {
    var N, L := j.t.numBlocks, j.t.words;
    FirstIsProduct(j, N);
    assert N * (3 * L + 9) + 2 * (N * L) + 3 * N == N * (5 * L + 12);
  }

  /** Where a run has got to: at rest, over, or with its remaining work paid for by what was done. */
  ghost predicate OnTime(j: Job, s: Sys, done: nat) {
    && Inv(j, s)
    && (s.line.p.waitRd ==> done + Rank(j, s) < Bound(j.t))
    && (!s.line.p.waitRd && !s.line.started ==> done == 0)
  }

  lemma StaysOnTime(j: Job, s: Sys, e: Env, done: nat)
    requires ReadJob(j) && OnTime(j, s, done) && Legal(s.line, PIns(j, s, e)) && Drained(s.bus, XIns(j, s, e))
    requires s.line.p.waitRd ==> Running(s.line, PIns(j, s, e))
    ensures OnTime(j, Step(j, s, e), done + Bit(s.line.p.waitRd && Cooperative(j, s, e)))
  {
    if s.line.p.waitRd {
      if LineNext(j, s.line, PIns(j, s, e)).p.waitRd {
        MiddleStep(j, s, e);
        Works(j, s, e);
      } else {
        LastStep(j, s, e);
      }
    } else if s.line.started {
      FinishedStep(j, s, e);
    } else {
      RestStep(j, s, e);
      if Step(j, s, e).line.p.waitRd { StartRank(j, s, e); }
    }
  }

  lemma {:induction false} WorkIsBounded(j: Job, s: Sys, es: seq<Env>)
    requires ReadJob(j) && Rest(s) && Settled(j, s.bus) && RunningRun(j, s, es) && DrainedRun(j, s, es)
    ensures OnTime(j, Run(j, s, es), CooperativeClocks(j, s, es))
    decreases |es|
  {
    if es != [] {
      WorkIsBounded(j, s, es[..|es| - 1]);
      var m := Run(j, s, es[..|es| - 1]);
      StaysOnTime(j, m, es[|es| - 1], CooperativeClocks(j, s, es[..|es| - 1]));
    }
  }

  lemma TimeIsUp(j: Job, s: Sys, done: nat)
    requires ReadJob(j) && OnTime(j, s, done) && done >= Bound(j.t)
    ensures Finished(j, s)
  {
    ProductPositive(j.t.numBlocks, 5 * j.t.words + 12);
    if s.line.p.waitRd {
      LineRankPositive(j, s.line, |s.bus.x.fifo|, s.bus.x.memFree);
      BusRankPositive(j, s.bus);
    }
  }

  /**
   * However the stalls fall, a read command of N blocks of L words whose bursts drain has finished, correctly, once
   * that many clocks, N * (5L + 12) + 6, of its data phase were free of stalls.
   */
  lemma Completes(j: Job, s: Sys, es: seq<Env>)
    requires ReadJob(j) && Rest(s) && Settled(j, s.bus) && RunningRun(j, s, es) && DrainedRun(j, s, es)
    requires CooperativeClocks(j, s, es) >= Bound(j.t)
    ensures Finished(j, Run(j, s, es))
  {
    WorkIsBounded(j, s, es);
    TimeIsUp(j, Run(j, s, es), CooperativeClocks(j, s, es));
  }

  /** A one-block read, which is all the driver issues, needs no promise about its bursts. */
  lemma OneBlockCompletes(j: Job, s: Sys, es: seq<Env>)
    requires ReadJob(j) && j.t.numBlocks == 1 && Rest(s) && Settled(j, s.bus) && RunningRun(j, s, es)
    requires CooperativeClocks(j, s, es) >= 5 * j.t.words + 18
    ensures Finished(j, Run(j, s, es))
  {
    RunningIsLegal(j, s, es);
    OneBlockDrains(j, s, es);
    Completes(j, s, es);
  }
}
