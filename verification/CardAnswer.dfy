/** A written block is over for the card before anything follows it: its answer has come and the data line is free. */
module CardAnswer {
  import opened Words
  import opened Geometry
  import opened Transfer
  import opened WritePath
  import P = Payload
  import X = AxiManager

  /** What has been heard of the card since the block in hand was begun. */
  datatype Heard = Nothing | Ended | Answered

  /** One clock's input: the end mark first, and after it the card's answer beat. */
  function Hears(h: Heard, rx: bool, rxEnd: bool): Heard {
    if h == Nothing && rx && rxEnd then Ended else if h == Ended && rx then Answered else h
  }

  /** The end mark, and after it the card's answer beat, as they came in. */
  function HeardBy(j: Job, s: Sys, es: seq<Env>): Heard
    decreases |es|
  {
    if es == [] then Nothing
    else
      var m, e, h := Run(j, s, es[..|es| - 1]), es[|es| - 1], HeardBy(j, s, es[..|es| - 1]);
      if m.line.p.cs == P.Idle then Nothing else Hears(h, e.rx, e.rxEnd)
  }

  /** The registers that follow this, while a write is under way. */
  predicate Follows(p: P.Regs, h: Heard, free: bool) {
    && p.lineFree == free && (p.cs != P.Idle ==> p.xferDone == (h != Nothing) && p.checkBusy == (h == Answered))
  }

  lemma FollowsClock(j: Job, l: Line, i: P.Ins, h: Heard)
    requires l.p.waitWr && Follows(l.p, h, l.p.lineFree)
    ensures var h' := if l.p.cs == P.Idle then Nothing else Hears(h, i.rxValid, i.rxEnd);
            Follows(LineNext(j, l, i).p, h', i.datLine)
  {
  }

  /** DAT0 on the last clock of a run. */
  predicate LineWasFree(es: seq<Env>) { es != [] && es[|es| - 1].datLine }

  lemma {:induction false} RunFollows(j: Job, s: Sys, es: seq<Env>)
    requires WriteJob(j) && Rest(s) && LegalRun(j, s, es)
    ensures var z := Run(j, s, es);
            z.line.p.waitWr ==> Follows(z.line.p, HeardBy(j, s, es), z.line.p.lineFree)
    ensures es != [] ==> Run(j, s, es).line.p.lineFree == LineWasFree(es)
    decreases |es|
  {
    if es != [] {
      var m, e := Run(j, s, es[..|es| - 1]), es[|es| - 1];
      RunFollows(j, s, es[..|es| - 1]);
      RunKeepsInv(j, s, es[..|es| - 1]);
      if m.line.p.waitWr { FollowsClock(j, m.line, PIns(j, m, e), HeardBy(j, s, es[..|es| - 1])); }
    }
  }

  /** A write block is left exactly on the card's answer with the line free; only the bus test does not wait. */
  lemma RspLeaves(j: Job, s: Sys, es: seq<Env>, e: Env)
    requires WriteJob(j) && Rest(s) && LegalRun(j, s, es) && Legal(Run(j, s, es).line, PIns(j, Run(j, s, es), e))
    requires var p := Run(j, s, es).line.p; p.waitWr && p.cs == P.Rsp
    ensures Step(j, Run(j, s, es), e).line.p.cs != P.Rsp <==>
            j.busTestWr || (HeardBy(j, s, es) == Answered && LineWasFree(es))
  {
    RunFollows(j, s, es);
  }

  // ---------------------------------------------------------------- over whole runs

  /** Written blocks the payload half is done with. */
  function Released(j: Job, l: Line): nat {
    if !l.p.waitWr then (if l.started then j.t.numBlocks else 0)
    else if (l.p.cs == P.Crc || l.p.cs == P.Dummy || l.p.cs == P.Rsp) && l.p.blkCntr > 0 then l.p.blkCntr - 1
    else l.p.blkCntr
  }

  lemma ReleasedClock(j: Job, s: Sys, e: Env)
    requires WriteJob(j) && Inv(j, s) && Legal(s.line, PIns(j, s, e))
    ensures var l' := Step(j, s, e).line;
            || Released(j, l') <= Released(j, s.line)
            || (s.line.p.waitWr && s.line.p.cs == P.Rsp && l'.p.cs != P.Rsp &&
                s.line.tx == Frames(j, Released(j, l')) && Released(j, l') == Released(j, s.line) + 1)
  {
  }

  /** Block c, counted from one, is all sent and nothing after it. */
  ghost predicate JustSent(j: Job, l: Line, c: nat) { l.tx == Frames(j, c) && l.p.waitWr && l.p.blkCntr == c }

  /** The card has answered it and freed the line. */
  ghost predicate AnsweredAt(j: Job, l: Line, h: Heard, free: bool, c: nat) {
    JustSent(j, l, c) && l.p.cs == P.Rsp && h == Answered && free
  }

  /** At some clock of the run the card has answered block c and freed the line, before anything follows the block. */
  ghost predicate WasAnswered(j: Job, s: Sys, es: seq<Env>, c: nat)
    decreases |es|
  {
    es != [] &&
    (var before := es[..|es| - 1];
     || WasAnswered(j, s, before, c)
     || AnsweredAt(j, Run(j, s, before).line, HeardBy(j, s, before), LineWasFree(before), c))
  }

  lemma ReleaseIsAnswered(j: Job, m: Sys, e: Env, h: Heard, free: bool, c: nat)
    requires WriteJob(j) && !j.busTestWr && Inv(j, m) && Legal(m.line, PIns(j, m, e))
    requires m.line.p.waitWr ==> Follows(m.line.p, h, free)
    requires Released(j, m.line) < c <= Released(j, Step(j, m, e).line)
    ensures m.line.p.waitWr ==> AnsweredAt(j, m.line, h, free, c)
    ensures m.line.p.waitWr
  {
    ReleasedClock(j, m, e);
  }

  lemma {:induction false} ReleasedMeansAnswered(j: Job, s: Sys, es: seq<Env>, c: nat)
    requires WriteJob(j) && !j.busTestWr && Rest(s) && LegalRun(j, s, es) && 1 <= c <= Released(j, Run(j, s, es).line)
    ensures WasAnswered(j, s, es, c)
    decreases |es|
  {
    if es != [] {
      var before, e := es[..|es| - 1], es[|es| - 1];
      var m := Run(j, s, before);
      if c <= Released(j, m.line) {
        ReleasedMeansAnswered(j, s, before, c);
      } else {
        RunKeepsInv(j, s, before);
        RunFollows(j, s, before);
        ReleaseIsAnswered(j, m, e, HeardBy(j, s, before), m.line.p.lineFree, c);
      }
    }
  }

  lemma {:induction false} FramesGrow(j: Job, c: nat, n: nat)
    requires c <= n
    ensures |Frames(j, c)| + (n - c) <= |Frames(j, n)|
  {
    if c < n { FramesGrow(j, c, n - 1); }
  }

  /** What follows a block follows its release. */
  lemma BeyondMeansReleased(j: Job, s: Sys, c: nat)
    requires WriteJob(j) && Inv(j, s) && 1 <= c <= j.t.numBlocks
    requires |s.line.tx| > |Frames(j, c)| || (s.line.started && !s.line.p.waitWr)
    ensures c <= Released(j, s.line)
  {
    if s.line.p.waitWr && s.line.p.blkCntr < c { FramesGrow(j, s.line.p.blkCntr + 1, c); }
  }

  /**
   * Whatever follows block c on the data lines, and the end of the command, come after the block's end mark, then the
   * card's answer, and with or after that DAT0 high, all of them since the block was begun.
   */
  lemma CardAnswersFirst(j: Job, s: Sys, es: seq<Env>, c: nat)
    requires WriteJob(j) && !j.busTestWr && Rest(s) && LegalRun(j, s, es) && 1 <= c <= j.t.numBlocks
    requires var l := Run(j, s, es).line; |l.tx| > |Frames(j, c)| || (l.started && !l.p.waitWr)
    ensures WasAnswered(j, s, es, c)
  {
    RunKeepsInv(j, s, es);
    BeyondMeansReleased(j, Run(j, s, es), c);
    ReleasedMeansAnswered(j, s, es, c);
  }

  /** A block is being handed over, its CRC slot not yet taken. */
  predicate InBlock(c: P.State) { c == P.Start || c == P.Data || c == P.Crc }

  /** The SERDES hands over nothing while it is given a block to send. */
  ghost predicate MuteRun(j: Job, s: Sys, es: seq<Env>)
    decreases |es|
  {
    es == [] ||
    (MuteRun(j, s, es[..|es| - 1]) && (InBlock(Run(j, s, es[..|es| - 1]).line.p.cs) ==> !es[|es| - 1].rx))
  }

  /** The same history counted from the block's CRC slot on. */
  function HeardSinceSlot(j: Job, s: Sys, es: seq<Env>): Heard
    decreases |es|
  {
    if es == [] then Nothing
    else
      var m, e, h := Run(j, s, es[..|es| - 1]), es[|es| - 1], HeardSinceSlot(j, s, es[..|es| - 1]);
      if m.line.p.cs == P.Idle || InBlock(m.line.p.cs) then Nothing else Hears(h, e.rx, e.rxEnd)
  }

  /** A block in progress was begun from the idle state. */
  lemma BlockFromIdle(j: Job, m: Sys, e: Env)
    requires InBlock(Step(j, m, e).line.p.cs)
    ensures m.line.p.cs == P.Idle || InBlock(m.line.p.cs)
  {
  }

  /** With such a SERDES, what was heard of the card by then came since the block's CRC slot was taken. */
  lemma {:induction false} AllSinceSlot(j: Job, s: Sys, es: seq<Env>)
    requires MuteRun(j, s, es) && Rest(s)
    ensures HeardSinceSlot(j, s, es) == HeardBy(j, s, es)
    ensures InBlock(Run(j, s, es).line.p.cs) ==> HeardBy(j, s, es) == Nothing
    decreases |es|
  {
    if es != [] {
      AllSinceSlot(j, s, es[..|es| - 1]);
      if InBlock(Run(j, s, es).line.p.cs) { BlockFromIdle(j, Run(j, s, es[..|es| - 1]), es[|es| - 1]); }
    }
  }

  /** The same as WasAnswered, all of it since the slot. */
  ghost predicate WasAnsweredSinceSlot(j: Job, s: Sys, es: seq<Env>, c: nat)
    decreases |es|
  {
    es != [] &&
    (var before := es[..|es| - 1];
     || WasAnsweredSinceSlot(j, s, before, c)
     || AnsweredAt(j, Run(j, s, before).line, HeardSinceSlot(j, s, before), LineWasFree(before), c))
  }

  lemma {:induction false} AnsweredSinceSlot(j: Job, s: Sys, es: seq<Env>, c: nat)
    requires MuteRun(j, s, es) && Rest(s) && WasAnswered(j, s, es, c)
    ensures WasAnsweredSinceSlot(j, s, es, c)
    decreases |es|
  {
    var before := es[..|es| - 1];
    AllSinceSlot(j, s, before);
    if WasAnswered(j, s, before, c) { AnsweredSinceSlot(j, s, before, c); }
  }

  /** With such a SERDES, end mark, answer and free line all come between block c's CRC slot and what follows it. */
  lemma CardAnswersSlot(j: Job, s: Sys, es: seq<Env>, c: nat)
    requires WriteJob(j) && !j.busTestWr && Rest(s) && LegalRun(j, s, es) && MuteRun(j, s, es)
    requires 1 <= c <= j.t.numBlocks
    requires var l := Run(j, s, es).line; |l.tx| > |Frames(j, c)| || (l.started && !l.p.waitWr)
    ensures WasAnsweredSinceSlot(j, s, es, c)
  {
    CardAnswersFirst(j, s, es, c);
    AnsweredSinceSlot(j, s, es, c);
  }

  // ---------------------------------------------------------------- and the data clock has stopped

  /** Blocks after which the payload half has gone on. */
  function Left(l: Line): nat {
    if l.p.blkCntr > 0 && l.p.cs != P.Idle && l.p.cs != P.Start && l.p.cs != P.Data then l.p.blkCntr - 1
    else l.p.blkCntr
  }

  lemma LeftClock(j: Job, s: Sys, e: Env, c: nat)
    requires WriteJob(j) && Inv(j, s) && Legal(s.line, PIns(j, s, e)) && Step(j, s, e).line.p.waitWr
    requires 1 <= c <= Left(Step(j, s, e).line)
    ensures s.line.p.waitWr && (c <= Left(s.line) || (!e.clkVld && s.line.tx == Frames(j, c)))
  {
  }

  /** At some clock of the run, block c being sent and nothing after it, the data clock has stood still. */
  ghost predicate WasStopped(j: Job, s: Sys, es: seq<Env>, c: nat)
    decreases |es|
  {
    es != [] &&
    (var before := es[..|es| - 1];
     || WasStopped(j, s, before, c)
     || (!es[|es| - 1].clkVld && Run(j, s, before).line.tx == Frames(j, c)))
  }

  /** No block begins before the data clock has been seen stopped after the one before it. */
  lemma {:induction false} ClockStopsBetween(j: Job, s: Sys, es: seq<Env>, c: nat)
    requires WriteJob(j) && Rest(s) && LegalRun(j, s, es) && 1 <= c
    requires var l := Run(j, s, es).line; l.p.waitWr && c <= Left(l)
    ensures WasStopped(j, s, es, c)
    decreases |es|
  {
    if es != [] {
      var before := es[..|es| - 1];
      var m := Run(j, s, before);
      RunKeepsInv(j, s, before);
      LeftClock(j, m, es[|es| - 1], c);
      if c <= Left(m.line) { ClockStopsBetween(j, s, before, c); }
    }
  }
}
