/** Every build and every command of two or more blocks: a legal read run that writes the card's words wrongly. */
module UndrainedRead {
  import opened Words
  import opened Geometry
  import opened Transfer
  import opened ReadPath
  import P = Payload
  import X = AxiManager
  import G = ReadProgress

  ghost predicate ManyBlocks(j: Job) { ReadJob(j) && 2 <= j.t.numBlocks }

  /** Bursts announced by this command. */
  function Announced(b: Bus): nat { if b.x.cs == X.Idle then 0 else b.x.blkCntr }

  /** The last block but one is about to be completed on the bus, with a word of the last block in the FIFO. */
  predicate Ripe(j: Job, b: Bus) {
    b.x.cs == X.Done && b.x.blkCntr + 1 == j.t.numBlocks && b.x.queue != [] && b.x.queue[0].last && b.x.fifo != []
  }

  /** The line side may go on from its wait state: the bus has caught up, or is in the last burst but one. */
  predicate MayGoOn(j: Job, s: Sys) {
    && s.line.owed == 0 && s.line.p.blkCntr == Announced(s.bus)
    && (s.bus.x.cs == X.Wait || s.bus.x.blkCntr + 1 == j.t.numBlocks)
  }

  /** Memory withholds its answer to that burst's last beat until a word of the next block has come. */
  predicate Withheld(j: Job, b: Bus) {
    b.x.blkCntr + 1 == j.t.numBlocks && b.x.fifo == [] && b.x.queue != [] && b.x.queue[0].last
  }

  /** The surroundings of the wrong run: everybody answers at once, except for these two. */
  function Choice(j: Job, s: Sys, starting: bool): Env {
    Env(ready := true, rx := s.line.owed > 0, rxEnd := Due(s.line) == 1, datLine := true,
        clkVld := s.line.p.cs != P.Wait || !MayGoOn(j, s),
        cmdIdle := false, cmdRsp := starting, cmdWait := !starting, kick := false, restart := false,
        arready := false, rvalid := false, awready := true, wready := !Withheld(j, s.bus))
  }

  /** Until then the line side is never more than a block ahead of the bus, and never inside one of its bursts. */
  ghost predicate Lockstep(j: Job, s: Sys) {
    var k, b := Announced(s.bus), s.line.p.blkCntr;
    && k < j.t.numBlocks && (k + 1 == j.t.numBlocks ==> s.bus.x.cs == X.Done)
    && Asked(s.line) <= k + 1
    && (s.line.p.cs == P.Idle || s.line.p.cs == P.Start ==> b <= k && (s.bus.x.cs == X.Done ==> k + 1 == j.t.numBlocks))
    && (s.bus.x.cs == X.Done && k + 1 < j.t.numBlocks ==> Asked(s.line) <= k)
    && ((s.bus.x.cs == X.Wait && s.bus.x.gteqAxlen) || s.bus.x.cs == X.Write ==> First(j, k) < s.line.received)
    && (s.bus.x.cs == X.Done ==> 1 <= k && First(j, k - 1) < s.line.received)
  }

  ghost predicate Before(j: Job, s: Sys) {
    Active(j, s) && Lockstep(j, s) && !Ripe(j, s.bus)
  }

  lemma ChoiceIsLegal(j: Job, s: Sys)
    requires ManyBlocks(j) && Before(j, s)
    ensures var e := Choice(j, s, false);
            && G.Running(s.line, PIns(j, s, e)) && LineNext(j, s.line, PIns(j, s, e)).p.waitRd
  {
    if s.line.owed > 0 { OldestAsk(j, s.line, |s.bus.x.fifo|, s.bus.x.memFree); }
  }

  lemma ChoiceDrains(j: Job, s: Sys)
    requires ManyBlocks(j) && Before(j, s)
    ensures Drained(s.bus, XIns(j, s, Choice(j, s, false)))
  {
    FirstStrict(j, Asked(s.line), s.bus.x.blkCntr);
  }

  predicate Outside(c: P.State) { c == P.Idle || c == P.Start }

  /** What the bus can tell of the line side's clock. */
  predicate LineMoves(l: Line, l': Line, goOn: bool) {
    && l.received <= l'.received
    && Asked(l') == Asked(l) + Bit(l.p.cs == P.Start && l'.p.cs == P.Data)
    && (Outside(l'.p.cs) ==> l'.p.blkCntr == l.p.blkCntr && (Outside(l.p.cs) || (l.p.cs == P.Wait && goOn)))
  }

  lemma LineMovesOn(j: Job, s: Sys)
    requires ManyBlocks(j) && Before(j, s)
    ensures LineMoves(s.line, LineNext(j, s.line, PIns(j, s, Choice(j, s, false))), MayGoOn(j, s))
  {
  }

  /** What the line side can tell of the bus's. */
  predicate BusMoves(b: Bus, b': Bus) {
    match b.x.cs
    case Idle => b'.x.cs == X.Wait && b'.x.blkCntr == 0 && (b.x.fifoCntr < b.x.axlen ==> !b'.x.gteqAxlen)
    case Wait =>
      && (b'.x.cs == X.Wait || (b'.x.cs == X.Write && b.x.gteqAxlen)) && b'.x.blkCntr == b.x.blkCntr
      && (b'.x.gteqAxlen ==> b.x.fifoCntr >= b.x.axlen)
    case Write => b'.x.cs == X.Done && b'.x.blkCntr == b.x.blkCntr + 1
    case Done =>
      && b'.x.blkCntr == b.x.blkCntr
      && (b'.x.cs == X.Done ||
          (b'.x.cs == X.Wait && b.x.queue != [] && b.x.queue[0].last && (b.x.fifoCntr < b.x.axlen ==> !b'.x.gteqAxlen)))
    case Read => true
  }

  lemma BusMovesOn(j: Job, s: Sys)
    requires ManyBlocks(j) && Before(j, s)
    ensures BusMoves(s.bus, BusNext(j, s.bus, XIns(j, s, Choice(j, s, false))))
    ensures var b' := BusNext(j, s.bus, XIns(j, s, Choice(j, s, false)));
            s.bus.x.cs == X.Done && b'.x.cs == X.Wait ==> s.bus.x.blkCntr + 1 < j.t.numBlocks && s.bus.x.fifo == []
  {
    ChoiceDrains(j, s);
  }

  /** A burst ahead of its words would be behind them. */
  lemma WordsOfBurst(j: Job, s: Sys)
    requires ManyBlocks(j) && Before(j, s) && First(j, Announced(s.bus)) < s.line.received
    ensures Announced(s.bus) < Asked(s.line)
  {
    FirstStrict(j, Asked(s.line), Announced(s.bus));
  }

  ghost predicate Around(j: Job, s: Sys, z: Sys) {
    && LineMoves(s.line, z.line, MayGoOn(j, s)) && BusMoves(s.bus, z.bus)
    && (s.bus.x.cs == X.Done && z.bus.x.cs == X.Wait ==> s.bus.x.blkCntr + 1 < j.t.numBlocks && s.bus.x.fifo == [])
  }

  lemma LockstepInBurst(j: Job, s: Sys, z: Sys)
    requires ManyBlocks(j) && Before(j, s) && Around(j, s, z) && s.bus.x.cs == X.Done
    ensures Lockstep(j, z)
  {
  }

  lemma LockstepBetween(j: Job, s: Sys, z: Sys)
    requires ManyBlocks(j) && Before(j, s) && Around(j, s, z) && s.bus.x.cs != X.Done
    ensures Lockstep(j, z)
  {
    if First(j, Announced(s.bus)) < s.line.received { WordsOfBurst(j, s); }
  }

  lemma LockstepKept(j: Job, s: Sys)
    requires ManyBlocks(j) && Before(j, s)
    ensures Lockstep(j, Step(j, s, Choice(j, s, false)))
  {
    LineMovesOn(j, s);
    BusMovesOn(j, s);
    if s.bus.x.cs == X.Done {
      LockstepInBurst(j, s, Step(j, s, Choice(j, s, false)));
    } else {
      LockstepBetween(j, s, Step(j, s, Choice(j, s, false)));
    }
  }

  /** The line side makes no progress on this clock. */
  predicate LineStands(j: Job, s: Sys) {
    || (s.line.p.cs == P.Wait && s.line.owed == 0 && !MayGoOn(j, s))
    || G.LineBlocked(j, s.line, |s.bus.x.fifo|, s.bus.x.memFree)
  }

  predicate BusStands(j: Job, s: Sys) {
    (s.bus.x.cs == X.Done && Withheld(j, s.bus)) || G.BusBlocked(j, s.bus)
  }

  /** A line side that is held back between blocks leaves the bus a block to write. */
  lemma HeldBack(j: Job, s: Sys)
    requires ManyBlocks(j) && Before(j, s) && s.bus.x.cs != X.Done
    requires s.line.p.cs == P.Wait && s.line.owed == 0 && !MayGoOn(j, s)
    ensures !BusStands(j, s)
  {
    var k, b := Announced(s.bus), s.line.p.blkCntr;
    FirstStrict(j, k, b);
    if k < b {
      FirstMonotone(j, k + 1, b);
      assert First(j, k + 1) == First(j, k) + j.t.words;
    }
  }

  /** The same inside a burst. */
  lemma HeldBackInBurst(j: Job, s: Sys)
    requires ManyBlocks(j) && Before(j, s) && s.bus.x.cs == X.Done
    requires s.line.p.cs == P.Wait && s.line.owed == 0 && !MayGoOn(j, s)
    ensures !BusStands(j, s)
  {
    var k, b := Announced(s.bus), s.line.p.blkCntr;
    assert First(j, k) == First(j, k - 1) + j.t.words;
    FirstStrict(j, b, k - 1);
    if k < b { FirstMonotone(j, k, b - 1); }
  }

  lemma NotBothStand(j: Job, s: Sys)
    requires ManyBlocks(j) && Before(j, s) && LineStands(j, s)
    ensures !BusStands(j, s)
  {
    if s.line.p.cs == P.Wait && s.line.owed == 0 && !MayGoOn(j, s) {
      if s.bus.x.cs == X.Done { HeldBackInBurst(j, s); } else { HeldBack(j, s); }
    } else {
      G.NeverBothBlocked(j, s);
      FirstStrict(j, s.line.p.blkCntr, Announced(s.bus));
    }
  }

  lemma WhoAnswers(j: Job, s: Sys)
    ensures var e := Choice(j, s, false);
            && (!LineStands(j, s) ==> G.LineCooperative(s.line, PIns(j, s, e)))
            && (!BusStands(j, s) ==> G.BusCooperative(s.bus, e.awready, e.wready))
  {
  }

  lemma SomeoneWorks(j: Job, s: Sys)
    requires ManyBlocks(j) && Before(j, s)
    ensures G.Rank(j, Step(j, s, Choice(j, s, false))) < G.Rank(j, s)
  {
    var e := Choice(j, s, false);
    ChoiceIsLegal(j, s);
    G.LineWorks(j, s.line, PIns(j, s, e), |s.bus.x.fifo|);
    G.BusWorks(j, s.bus, XIns(j, s, e), s.line.received, Due(s.line));
    if LineStands(j, s) { NotBothStand(j, s); }
    WhoAnswers(j, s);
  }

  lemma BeforeKept(j: Job, s: Sys)
    requires ManyBlocks(j) && Before(j, s)
    ensures var z := Step(j, s, Choice(j, s, false)); Ripe(j, z.bus) || Before(j, z)
    ensures Active(j, Step(j, s, Choice(j, s, false)))
    ensures Legal(s.line, PIns(j, s, Choice(j, s, false)))
  {
    var e := Choice(j, s, false);
    ChoiceIsLegal(j, s);
    ChoiceDrains(j, s);
    MiddleStep(j, s, e);
    LockstepKept(j, s);
  }

  lemma {:induction false} Ripens(j: Job, s: Sys, es: seq<Env>) returns (zs: seq<Env>)
    requires ManyBlocks(j) && LegalRun(j, s, es)
    requires var m := Run(j, s, es); Active(j, m) && (Ripe(j, m.bus) || Lockstep(j, m))
    ensures LegalRun(j, s, zs)
    ensures var z := Run(j, s, zs); Active(j, z) && Ripe(j, z.bus)
    decreases G.Rank(j, Run(j, s, es))
  {
    var m := Run(j, s, es);
    if Ripe(j, m.bus) { return es; }
    BeforeKept(j, m);
    SomeoneWorks(j, m);
    G.LineRankPositive(j, m.line, |m.bus.x.fifo|, m.bus.x.memFree);
    G.BusRankPositive(j, m.bus);
    LegalOneMore(j, s, es, Choice(j, m, false));
    zs := Ripens(j, s, es + [Choice(j, m, false)]);
  }

  // ---------------------------------------------------------------- the last block

  /** What the command leaves on the bus: all bursts but the last, and the first word of that one. */
  function Cut(j: Job, n: nat): seq<X.Beat> { Bursts(j, n) + [X.Beat(true, j.card(First(j, n)))] }

  /** The last block's words are asked for or already here. */
  ghost predicate LineTail(j: Job, l: Line) {
    LineInv(j, l, 0, true) && !Outside(l.p.cs) && Asked(l) == j.t.numBlocks
  }

  /** Its first word is queued, marked as a last beat; the burst it will end has not begun, is begun, or is over. */
  ghost predicate BusTail(j: Job, b: Bus, owed: nat, n: nat) {
    && b.x.axlenP1 == j.t.words && b.x.axlen == j.t.words - 1 && b.rdLeft == 0
    && (b.x.cs == X.Wait && b.x.blkCntr == n ==> !b.x.allDone && b.x.fifoCntr == |b.x.fifo| &&
                                                 |b.x.fifo| + Pending(b) + WordsOwed(owed) == j.t.words - 1)
    && (if b.x.blkCntr == n then b.x.cs == X.Wait || b.x.cs == X.Write
        else b.x.blkCntr == n + 1 && (b.x.cs == X.Done || b.x.cs == X.Wait))
    && (if b.x.blkCntr == n + 1 && b.x.cs == X.Wait then b.x.allDone && b.beats == Cut(j, n)
        else b.beats == Bursts(j, n) && b.x.queue == [X.Beat(true, j.card(First(j, n)))])
    && b.reqs == Requests(j, b.x.blkCntr) && (b.x.blkCntr == n ==> b.x.addr == Addr(j, First(j, n)))
  }

  ghost predicate Tail(j: Job, s: Sys) {
    LineTail(j, s.line) && BusTail(j, s.bus, Due(s.line), j.t.numBlocks - 1)
  }

  lemma TailIsLegal(j: Job, s: Sys)
    requires ManyBlocks(j) && LineTail(j, s.line)
    ensures var i := PIns(j, s, Choice(j, s, false)); var l' := LineNext(j, s.line, i);
            && G.Running(s.line, i) && LineInv(j, s.line, 0, i.memFree) && l'.started
            && l'.p.waitRd == !(s.line.p.cs == P.Wait && X.ReqDone(s.bus.x))
            && (s.line.p.cs != P.Wait ==> Asked(l') == Asked(s.line) && !Outside(l'.p.cs))
            && (s.line.p.cs == P.Wait && l'.p.waitRd ==> l'.p.cs == P.Wait && l'.p.blkCntr == s.line.p.blkCntr)
  {
    if s.line.owed > 0 { OldestAsk(j, s.line, 0, true); }
  }

  /** The clock on which the wait flag falls. */
  lemma LastClockKeeps(j: Job, s: Sys)
    requires ManyBlocks(j) && LineTail(j, s.line) && s.line.p.cs == P.Wait
    ensures var i := PIns(j, s, Choice(j, s, false));
            WordsOwed(Due(LineNext(j, s.line, i))) + Bit(P.MemWren(s.line.p, i)) == WordsOwed(Due(s.line))
  {
  }

  lemma LineTailKept(j: Job, s: Sys)
    requires ManyBlocks(j) && LineTail(j, s.line)
    ensures var i := PIns(j, s, Choice(j, s, false)); var l' := LineNext(j, s.line, i);
            && G.Running(s.line, i) && (l'.p.waitRd ==> LineTail(j, l'))
            && l'.p.waitRd == !(s.line.p.cs == P.Wait && X.ReqDone(s.bus.x)) && l'.started
            && WordsOwed(Due(l')) + Bit(P.MemWren(s.line.p, i)) == WordsOwed(Due(s.line))
  {
    var i := PIns(j, s, Choice(j, s, false));
    TailIsLegal(j, s);
    if LineNext(j, s.line, i).p.waitRd {
      LineKept(j, s.line, i, 0, 0);
    } else {
      LastClockKeeps(j, s);
    }
  }

  lemma BusTailKept(j: Job, b: Bus, i: X.Ins, owed: nat, owed': nat, n: nat)
    requires ManyBlocks(j) && BusTail(j, b, owed, n) && n + 1 == j.t.numBlocks && G.Filling(b, i) && i.awready
    requires i.wready || b.x.blkCntr == n
    requires WordsOwed(owed') + Bit(i.procWren) == WordsOwed(owed)
    ensures BusTail(j, BusNext(j, b, i), owed', n)
  {
  }

  /** What the clock that takes the ripe beat does to the FIFO and the burst. */
  predicate AfterRipe(j: Job, b: Bus, z: Bus, came: bool) {
    && z.x.cs == X.Wait && z.x.blkCntr == b.x.blkCntr && !z.x.allDone && z.reqs == b.reqs
    && z.x.axlenP1 == b.x.axlenP1 && z.x.axlen == (b.x.axlenP1 + 255) % 256 && z.rdLeft == b.rdLeft
    && z.x.addr == (b.x.addr + b.x.axlenP1) % AXI_WORDS
    && |z.x.fifo| + 1 == |b.x.fifo| + Pending(b) && Pending(z) == Bit(came)
    && z.x.fifoCntr + 1 == b.x.fifoCntr + Pending(b)
  }

  lemma RipeBeat(j: Job, b: Bus, i: X.Ins)
    requires ManyBlocks(j) && Ripe(j, b) && G.Filling(b, i) && i.wready && |b.x.fifo| < j.t.depth
    ensures AfterRipe(j, b, BusNext(j, b, i), i.procWren)
  {
  }

  lemma TailParts(j: Job, b: Bus, z: Bus, came: bool, received: nat, owed: nat, owed': nat)
    requires ManyBlocks(j) && FifoInv(j, b, received, owed) && BusInv(j, b) && Ripe(j, b) && AfterRipe(j, b, z, came)
    requires received + WordsOwed(owed) == First(j, j.t.numBlocks) && WordsOwed(owed') + Bit(came) == WordsOwed(owed)
    requires z.x.queue == [X.Beat(true, j.card(First(j, b.x.blkCntr)))] && z.beats == Bursts(j, b.x.blkCntr)
    ensures BusTail(j, z, owed', j.t.numBlocks - 1)
  {
    AddrAdd(j, First(j, b.x.blkCntr - 1), j.t.words);
  }

  lemma BusTailBegins(j: Job, b: Bus, i: X.Ins, received: nat, owed: nat, owed': nat)
    requires ManyBlocks(j) && FifoInv(j, b, received, owed) && BusInv(j, b) && Ripe(j, b) && G.Filling(b, i) && i.wready
    requires received + WordsOwed(owed) == First(j, j.t.numBlocks) && |b.x.fifo| < j.t.depth
    requires WordsOwed(owed') + Bit(i.procWren) == WordsOwed(owed)
    ensures BusTail(j, BusNext(j, b, i), owed', j.t.numBlocks - 1)
  {
    RipeBeat(j, b, i);
    LastBeatPrefetch(j, b, i, received, owed);
    TailParts(j, b, BusNext(j, b, i), i.procWren, received, owed, owed');
  }

  /** By then the last block has been asked for, and one word of it has left the FIFO's depth. */
  lemma RipeMeansLastBlock(j: Job, s: Sys)
    requires ManyBlocks(j) && Active(j, s) && Ripe(j, s.bus)
    ensures LineTail(j, s.line) && |s.bus.x.fifo| < j.t.depth
  {
    FirstStrict(j, Asked(s.line), s.bus.x.blkCntr);
  }

  /** The clock that takes the ripe beat. */
  lemma TailBegins(j: Job, s: Sys)
    requires ManyBlocks(j) && Active(j, s) && Ripe(j, s.bus)
    ensures Tail(j, Step(j, s, Choice(j, s, false))) && Legal(s.line, PIns(j, s, Choice(j, s, false)))
    ensures Step(j, s, Choice(j, s, false)).line.p.waitRd
  {
    var e := Choice(j, s, false);
    RipeMeansLastBlock(j, s);
    LineTailKept(j, s);
    BusTailBegins(j, s.bus, XIns(j, s, e), s.line.received, Due(s.line), Due(Step(j, s, e).line));
  }

  /** How far the last burst is from its end. */
  function BusLeft(j: Job, b: Bus): nat {
    if b.x.cs == X.Write then 4
    else if b.x.cs == X.Done then 3
    else if b.x.blkCntr == j.t.numBlocks then 1
    else 5 + Bit(!b.x.gteqAxlen) + Bit(b.x.fifoWren)
  }

  function TailRank(j: Job, s: Sys): int { G.LineRank(j, s.line, true) + BusLeft(j, s.bus) }

  /** The command over, with the last burst cut short after one beat and the rest of its words not written. */
  ghost predicate CutShort(j: Job, s: Sys) {
    && s.line.started && !s.line.p.waitRd && 1 <= j.t.numBlocks
    && s.bus.reqs == Requests(j, j.t.numBlocks) && s.bus.beats == Cut(j, j.t.numBlocks - 1)
  }

  lemma TailKept(j: Job, s: Sys)
    requires ManyBlocks(j) && Tail(j, s)
    ensures var z := Step(j, s, Choice(j, s, false)); if z.line.p.waitRd then Tail(j, z) else CutShort(j, z)
  {
    LineTailKept(j, s);
    var e := Choice(j, s, false);
    BusTailKept(j, s.bus, XIns(j, s, e), Due(s.line), Due(Step(j, s, e).line), j.t.numBlocks - 1);
  }

  /** The bus's part of that measure. */
  lemma TailBusWorks(j: Job, b: Bus, i: X.Ins, owed: nat)
    requires ManyBlocks(j) && BusTail(j, b, owed, j.t.numBlocks - 1) && G.Filling(b, i) && i.awready
    requires i.wready || b.x.blkCntr + 1 == j.t.numBlocks
    ensures BusLeft(j, BusNext(j, b, i)) <=
            BusLeft(j, b) + Bit(i.procWren) - Bit(WordsOwed(owed) == 0 && !X.ReqDone(b.x))
  {
  }

  lemma TailWorks(j: Job, s: Sys)
    requires ManyBlocks(j) && Tail(j, s) && Step(j, s, Choice(j, s, false)).line.p.waitRd
    ensures TailRank(j, Step(j, s, Choice(j, s, false))) < TailRank(j, s)
  {
    LineTailKept(j, s);
    var e := Choice(j, s, false);
    TailBusWorks(j, s.bus, XIns(j, s, e), Due(s.line));
    G.LineWorks(j, s.line, PIns(j, s, e), 0);
  }

  lemma {:induction false} TailEnds(j: Job, s: Sys, es: seq<Env>) returns (zs: seq<Env>)
    requires ManyBlocks(j) && LegalRun(j, s, es) && Tail(j, Run(j, s, es))
    ensures LegalRun(j, s, zs) && CutShort(j, Run(j, s, zs))
    decreases TailRank(j, Run(j, s, es))
  {
    var m := Run(j, s, es);
    TailKept(j, m);
    LineTailKept(j, m);
    G.LineRankPositive(j, m.line, 0, true);
    zs := es + [Choice(j, m, false)];
    LegalOneMore(j, s, es, Choice(j, m, false));
    if Run(j, s, zs).line.p.waitRd {
      TailWorks(j, m);
      zs := TailEnds(j, s, zs);
    }
  }

  /** The response phase wakes both machines. */
  lemma FirstClock(j: Job, s: Sys)
    requires ManyBlocks(j) && Rest(s) && Settled(j, s.bus)
    ensures Legal(s.line, PIns(j, s, Choice(j, s, true)))
    ensures var z := Step(j, s, Choice(j, s, true)); Active(j, z) && Lockstep(j, z)
  {
    RestStep(j, s, Choice(j, s, true));
  }

  /** From rest, a read of two or more blocks has a legal run that cuts its last burst short. */
  lemma CutShortRun(j: Job, s: Sys) returns (es: seq<Env>)
    requires ManyBlocks(j) && Rest(s) && Settled(j, s.bus)
    ensures LegalRun(j, s, es) && CutShort(j, Run(j, s, es))
  {
    FirstClock(j, s);
    LegalOneMore(j, s, [], Choice(j, s, true));
    es := Ripens(j, s, [] + [Choice(j, s, true)]);
    var m := Run(j, s, es);
    TailBegins(j, m);
    LegalOneMore(j, s, es, Choice(j, m, false));
    es := TailEnds(j, s, es + [Choice(j, m, false)]);
  }

  /** However memory and card behave, the finished command has written exactly its blocks. */
  ghost predicate AlwaysRight(j: Job, s: Sys) {
    forall es: seq<Env> ::
      LegalRun(j, s, es) && Run(j, s, es).line.started && !Run(j, s, es).line.p.waitRd
      ==> Run(j, s, es).bus.beats == Bursts(j, j.t.numBlocks)
  }

  lemma CutIsWrong(j: Job, z: Sys)
    requires ManyBlocks(j) && CutShort(j, z)
    ensures z.bus.beats != Bursts(j, j.t.numBlocks)
  {
    BurstsLength(j, j.t.numBlocks - 1);
    BurstsLength(j, j.t.numBlocks);
  }

  /** The condition a caller can check before the command: reads are safe exactly one block at a time. */
  lemma RightIffOneBlock(j: Job, s: Sys)
    requires ReadJob(j) && Rest(s) && Settled(j, s.bus)
    ensures AlwaysRight(j, s) <==> j.t.numBlocks == 1
  {
    if j.t.numBlocks == 1 {
      forall es: seq<Env> | LegalRun(j, s, es) && Run(j, s, es).line.started && !Run(j, s, es).line.p.waitRd
        ensures Run(j, s, es).bus.beats == Bursts(j, j.t.numBlocks)
      {
        OneBlockEndToEnd(j, s, es);
      }
    } else {
      var es := CutShortRun(j, s);
      CutIsWrong(j, Run(j, s, es));
    }
  }

  /** The same in register values: any build, any block length it takes, any number of blocks. */
  lemma OfferedReads(c: Csr, j: Job, s: Sys)
    requires Offered(c) && Pow2(c.blockLen) <= c.minBlock && 1 <= c.numBlocks && j.t == Decode(c) && !j.isWrite
    requires Rest(s) && Settled(j, s.bus)
    ensures AlwaysRight(j, s) <==> c.numBlocks == 1
  {
    SoundIffWithinMinimum(c);
    RightIffOneBlock(j, s);
  }
}
