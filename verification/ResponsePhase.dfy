/** What a command needs of the CMD line after its token: a beat to leave its response phase, and for a write another
    to begin its data. */
module ResponsePhase {
  import opened CommandProc
  import opened Exchange
  import H = Handshake
  import R = ReadPath
  import Timeout
  import P = Payload
  import T = Transfer
  import W = WritePath

  /** The CMD line takes a beat while the command waits for its response's last word. */
  predicate Catches(e: Regs, i: Ins) { e.c.cs == Rsp && e.r.cs == RspCrc && CmdHandshake(e.c, i.cmd) }

  ghost predicate Caught(s: Sys, ins: seq<Ins>)
    decreases |ins|
  {
    ins != [] &&
    (Caught(s, ins[..|ins| - 1]) || Catches(Run(s, ins[..|ins| - 1]).e, ins[|ins| - 1]))
  }

  /** The command is past its response phase exactly when some such beat was taken. */
  lemma {:induction false} LeavesIffCaught(o: Order, resp: seq<Octet>, s: Sys, ins: seq<Ins>)
    requires Answers(o, resp) && Begun(s) && LegalRun(o, resp, s, ins) && o.rspTyp != R0
    ensures var c := Run(s, ins).e.c.cs; (c == CmdState.Wait || c == Idle) <==> Caught(s, ins)
    decreases |ins|
  {
    if ins != [] {
      LeavesIffCaught(o, resp, s, ins[..|ins| - 1]);
      RunKeepsInv(o, resp, s, ins[..|ins| - 1]);
    }
  }

  /** The whole response has come, the receiver does not wait for its last word, and the command still does. */
  predicate Missed(o: Order, s: Sys) {
    s.e.c.cs == Rsp && s.received == |Split(o.rspTyp)| && s.e.r.cs != RspCrc
  }

  lemma MissedClock(o: Order, resp: seq<Octet>, s: Sys, i: Ins)
    requires Missed(o, s) && CountInv(o, s) && Legal(o, resp, s, i)
    ensures Missed(o, Step(s, i))
  {
  }

  /** Without a restart such a command waits for ever: no second response comes. */
  lemma {:induction false} MissedForEver(o: Order, resp: seq<Octet>, s: Sys, ins: seq<Ins>, k: nat)
    requires Answers(o, resp) && Begun(s) && LegalRun(o, resp, s, ins) && k <= |ins| && Missed(o, Run(s, ins[..k]))
    ensures Missed(o, Run(s, ins))
    decreases |ins|
  {
    if k == |ins| {
      assert ins[..k] == ins;
    } else {
      var last := |ins| - 1;
      assert ins[..last][..k] == ins[..k];
      MissedForEver(o, resp, s, ins[..last], k);
      RunKeepsInv(o, resp, s, ins[..last]);
      MissedClock(o, resp, Run(s, ins[..last]), ins[last]);
    }
  }

  /** Once the response is in, it is settled whether the command is ever past its response phase. */
  lemma PastOrNever(o: Order, resp: seq<Octet>, s: Sys, ins: seq<Ins>, k: nat)
    requires Answers(o, resp) && Begun(s) && LegalRun(o, resp, s, ins) && o.rspTyp != R0
    requires k <= |ins|
    requires Run(s, ins[..k]).received == |Split(o.rspTyp)| && Run(s, ins[..k]).e.r.cs != RspCrc
    ensures Caught(s, ins) <==> Caught(s, ins[..k])
    ensures !Caught(s, ins[..k]) ==> Run(s, ins).e.c.cs == Rsp
  {
    LegalPrefix(o, resp, s, ins, k);
    LeavesIffCaught(o, resp, s, ins);
    LeavesIffCaught(o, resp, s, ins[..k]);
    RunKeepsInv(o, resp, s, ins[..k]);
    if Caught(s, ins[..k]) {
      CaughtStays(s, ins, k);
    } else {
      MissedForEver(o, resp, s, ins, k);
    }
  }

  lemma {:induction false} LegalPrefix(o: Order, resp: seq<Octet>, s: Sys, ins: seq<Ins>, k: nat)
    requires LegalRun(o, resp, s, ins) && k <= |ins|
    ensures LegalRun(o, resp, s, ins[..k])
    decreases |ins|
  {
    if k == |ins| {
      assert ins[..k] == ins;
    } else {
      assert ins[..|ins| - 1][..k] == ins[..k];
      LegalPrefix(o, resp, s, ins[..|ins| - 1], k);
    }
  }

  lemma {:induction false} CaughtStays(s: Sys, ins: seq<Ins>, k: nat)
    requires k <= |ins| && Caught(s, ins[..k])
    ensures Caught(s, ins)
    decreases |ins|
  {
    if k == |ins| {
      assert ins[..k] == ins;
    } else {
      assert ins[..|ins| - 1][..k] == ins[..k];
      CaughtStays(s, ins[..|ins| - 1], k);
    }
  }

  lemma RunOneMore(s: Sys, ins: seq<Ins>, i: Ins)
    ensures (ins + [i])[..|ins|] == ins
    ensures Run(s, ins + [i]) == if Run(s, ins).e.c.cs == Idle then Run(s, ins) else Step(Run(s, ins), i)
  {
  }

  // ---------------------------------------------------------------- a command without data

  /** The payload half at rest. */
  predicate Resting(p: P.Regs) { p.cs == P.Idle && !p.valid && !p.waitWr && !p.waitRd }

  predicate NoData(o: Order) { !WriteIndex(o.idx, o.arg) && !ReadIndex(o.idx, o.arg) }

  /** The CMD line is idle. */
  predicate Quiet(i: Ins) { !i.cmd.clkVld && !i.cmd.dcEn }

  lemma {:induction false} NothingWaits(o: Order, resp: seq<Octet>, s: Sys, ins: seq<Ins>)
    requires LegalRun(o, resp, s, ins) && NoData(o) && !s.e.p.waitWr && !s.e.p.waitRd
    ensures !Run(s, ins).e.p.waitWr && !Run(s, ins).e.p.waitRd
    decreases |ins|
  {
    if ins != [] { NothingWaits(o, resp, s, ins[..|ins| - 1]); }
  }

  lemma QuietEnds(e: Regs, i: Ins, i': Ins)
    requires e.c.cs == CmdState.Wait && !e.p.waitWr && !e.p.waitRd && Quiet(i) && !e.k.cmdRestart
    ensures var f := Next(e, i);
            f.c.cs == Idle || (f.c.cs == CmdState.Wait && (!f.k.cmdRestart ==> Next(f, i').c.cs == Idle))
  {
  }

  /**
   * Once the response is in, a command without data ends if and only if such a beat was taken while it came; two
   * clocks, the CMD line idle on the first, are then enough.
   */
  lemma EndsIffCaught(o: Order, resp: seq<Octet>, s: Sys, ins: seq<Ins>, i: Ins, i': Ins)
    requires Answers(o, resp) && Begun(s) && LegalRun(o, resp, s, ins + [i] + [i']) && o.rspTyp != R0
    requires NoData(o) && !s.e.p.waitWr && !s.e.p.waitRd && Quiet(i)
    requires Run(s, ins).received == |Split(o.rspTyp)| && Run(s, ins).e.r.cs != RspCrc
    ensures Run(s, ins + [i] + [i']).e.c.cs == Idle <==> Caught(s, ins)
  {
    var all := ins + [i] + [i'];
    RunOneMore(s, ins, i);
    RunOneMore(s, ins + [i], i');
    assert all[..|ins|] == ins;
    LegalPrefix(o, resp, s, all, |ins|);
    PastOrNever(o, resp, s, all, |ins|);
    LeavesIffCaught(o, resp, s, ins);
    NothingWaits(o, resp, s, ins);
    if Run(s, ins).e.c.cs == CmdState.Wait { QuietEnds(Run(s, ins).e, i, i'); }
  }

  // ---------------------------------------------------------------- a write asks for its data once

  /** A wait flag has been up at some clock of the command. */
  ghost predicate Waited(s: Sys, ins: seq<Ins>)
    decreases |ins|
  {
    (ins != [] && Waited(s, ins[..|ins| - 1])) || Run(s, ins).e.p.waitWr || Run(s, ins).e.p.waitRd
  }

  /** A beat that gives a write its cue after the response, while the command still waits for it. */
  predicate LateCue(e: Regs, i: Ins) {
    e.c.cs == Rsp && e.r.cs == RspWait && CmdHandshake(e.c, i.cmd) && e.c.dcEn
  }

  ghost predicate NoLateCue(s: Sys, ins: seq<Ins>)
    decreases |ins|
  {
    ins == [] || (NoLateCue(s, ins[..|ins| - 1]) && !LateCue(Run(s, ins[..|ins| - 1]).e, ins[|ins| - 1]))
  }

  /** Until the response phase is over no block has begun, and the write flag, once up, is still up. */
  predicate Once(e: Regs, waited: bool) {
    if e.c.cs == Rsp then
      e.p.cs == P.Idle && !e.p.valid && !e.p.waitRd && (waited ==> e.p.waitWr)
    else if e.c.cs == CmdState.Wait || e.c.cs == Idle then true
    else Resting(e.p) && !waited
  }

  lemma OnceKept(e: Regs, i: Ins, waited: bool)
    requires Once(e, waited) && WriteIndex(i.csr.idx, i.csr.arg) && !LateCue(e, i) && e.c.cs != Idle
    requires !e.k.cmdRestart
    ensures var e' := Next(e, i); Once(e', waited || e'.p.waitWr || e'.p.waitRd)
  {
  }

  lemma {:induction false} RunKeepsOnce(o: Order, resp: seq<Octet>, s: Sys, ins: seq<Ins>)
    requires Answers(o, resp) && Begun(s) && LegalRun(o, resp, s, ins) && NoLateCue(s, ins)
    requires Resting(s.e.p) && WriteIndex(o.idx, o.arg)
    ensures Once(Run(s, ins).e, Waited(s, ins))
    decreases |ins|
  {
    if ins != [] {
      var m := Run(s, ins[..|ins| - 1]);
      RunKeepsOnce(o, resp, s, ins[..|ins| - 1]);
      if m.e.c.cs != Idle { OnceKept(m.e, ins[|ins| - 1], Waited(s, ins[..|ins| - 1])); }
    }
  }

  lemma LateMeansMissed(o: Order, resp: seq<Octet>, s: Sys, ins: seq<Ins>, i: Ins)
    requires Answers(o, resp) && Begun(s) && LegalRun(o, resp, s, ins) && LateCue(Run(s, ins).e, i)
    ensures Missed(o, Run(s, ins))
  {
    RunKeepsInv(o, resp, s, ins);
  }

  /** A late cue comes only to a command that will wait for ever. */
  lemma {:induction false} PunctualUnlessMissed(o: Order, resp: seq<Octet>, s: Sys, ins: seq<Ins>)
    requires Answers(o, resp) && Begun(s) && LegalRun(o, resp, s, ins) && !Missed(o, Run(s, ins))
    ensures NoLateCue(s, ins)
    decreases |ins|
  {
    if ins != [] {
      var last := |ins| - 1;
      if Missed(o, Run(s, ins[..last])) { MissedForEver(o, resp, s, ins, last); }
      PunctualUnlessMissed(o, resp, s, ins[..last]);
      if LateCue(Run(s, ins[..last]).e, ins[last]) { LateMeansMissed(o, resp, s, ins[..last], ins[last]); }
    }
  }

  /**
   * What the write path asks of its surroundings, the command half does: the response phase of a write command is
   * not on again once its data phase was, unless the command has missed the end of its response.
   */
  lemma WriteIsLegal(o: Order, resp: seq<Octet>, s: Sys, ins: seq<Ins>, i: Ins, l: T.Line)
    requires Answers(o, resp) && Begun(s) && LegalRun(o, resp, s, ins) && !Missed(o, Run(s, ins))
    requires Resting(s.e.p) && WriteIndex(o.idx, o.arg) && Legal(o, resp, Run(s, ins), i)
    requires l.p == Run(s, ins).e.p && l.started == Waited(s, ins)
    ensures W.Legal(l, PIns(Run(s, ins).e, i))
  {
    PunctualUnlessMissed(o, resp, s, ins);
    RunKeepsOnce(o, resp, s, ins);
  }

  // ---------------------------------------------------------------- and needs a cue for it

  /** A beat after the response that drives nothing: the cue for a waiting write. */
  predicate Cues(e: Regs, i: Ins) {
    e.c.cs != Idle && (e.r.cs == RspCrc || e.r.cs == RspWait) && CmdHandshake(e.c, i.cmd) && e.c.dcEn && e.p.waitWr
  }

  ghost predicate Cued(s: Sys, ins: seq<Ins>)
    decreases |ins|
  {
    ins != [] &&
    (Cued(s, ins[..|ins| - 1]) || Cues(Run(s, ins[..|ins| - 1]).e, ins[|ins| - 1]))
  }

  lemma CueClock(e: Regs, i: Ins)
    requires !e.p.waitRd && (e.p.valid || e.p.cs == P.Idle) && e.c.cs != Idle
    requires WriteIndex(i.csr.idx, i.csr.arg)
    ensures var p := Next(e, i).p;
            !p.waitRd && (p.valid || p.cs == P.Idle) && (p.valid <==> e.p.valid || Cues(e, i))
  {
  }

  /** The payload half of a write is valid, and can begin a block, if and only if the cue has come. */
  lemma {:induction false} ValidIffCued(o: Order, resp: seq<Octet>, s: Sys, ins: seq<Ins>)
    requires Resting(s.e.p) && LegalRun(o, resp, s, ins) && WriteIndex(o.idx, o.arg)
    ensures var p := Run(s, ins).e.p; !p.waitRd && (p.valid <==> Cued(s, ins)) && (p.valid || p.cs == P.Idle)
    decreases |ins|
  {
    if ins != [] {
      var m := Run(s, ins[..|ins| - 1]);
      ValidIffCued(o, resp, s, ins[..|ins| - 1]);
      if m.e.c.cs != Idle { CueClock(m.e, ins[|ins| - 1]); }
    }
  }

  /** A write that waits for data it will never ask for. */
  predicate Stranded(e: Regs) {
    && e.c.cs == CmdState.Wait && e.c.detStart && !e.c.detDone && e.r.cs == RspIdle && !e.r.cmdDone
    && Uncued(e) && H.NoFlag(e) && e.k.cs == RecIdle && !e.k.cmdRestart
  }

  predicate Uncued(e: Regs) { e.p.cs == P.Idle && !e.p.valid && e.p.waitWr && !e.p.waitRd }

  /** No input changes that: no timer runs out, nothing is taken, and busy stays up. */
  lemma StrandedClock(e: Regs, i: Ins)
    requires Stranded(e)
    ensures Stranded(Next(e, i))
  {
  }

  lemma {:induction false} StrandedForEver(e: Regs, ins: seq<Ins>)
    requires Stranded(e)
    ensures Stranded(Timeout.Run(e, ins))
    decreases |ins|
  {
    if ins != [] {
      StrandedForEver(e, ins[..|ins| - 1]);
      StrandedClock(Timeout.Run(e, ins[..|ins| - 1]), ins[|ins| - 1]);
    }
  }

  /** A command that has just begun in an engine in order. */
  predicate Fresh(s: Sys) {
    Begun(s) && Resting(s.e.p) && H.EngineInv(s.e) && s.e.k.cs == RecIdle && H.NoFlag(s.e)
  }

  /** While its payload half is not valid: the flags a write can have up, and its wait flag past the response phase. */
  predicate Unserved(e: Regs) {
    && H.EngineInv(e) && e.p.cs == P.Idle && !e.p.waitRd && !e.m.datGt
    && (e.m.rspGt ==> e.r.cs == RspStart || e.r.cs == RspArg)
    && (e.k.cs != RecIdle ==> e.r.cs == RspStart || e.r.cs == RspArg || e.r.cs == RspCrc)
    && (e.c.cs == CmdState.Wait ==> e.p.waitWr)
  }

  lemma UnservedClock(e: Regs, i: Ins)
    requires Unserved(e) && !e.p.valid && WriteIndex(i.csr.idx, i.csr.arg) && !e.k.cmdRestart
    requires e.c.cs == Dummy ==> e.c.cntr != 0
    ensures Unserved(Next(e, i))
  {
    H.EngineKept(e, i);
  }

  lemma {:induction false} StaysUnserved(o: Order, resp: seq<Octet>, s: Sys, ins: seq<Ins>)
    requires Answers(o, resp) && Fresh(s) && LegalRun(o, resp, s, ins) && WriteIndex(o.idx, o.arg) && o.rspTyp != R0
    requires !Cued(s, ins)
    ensures Unserved(Run(s, ins).e)
    decreases |ins|
  {
    if ins != [] {
      var m := Run(s, ins[..|ins| - 1]);
      StaysUnserved(o, resp, s, ins[..|ins| - 1]);
      ValidIffCued(o, resp, s, ins[..|ins| - 1]);
      RunKeepsInv(o, resp, s, ins[..|ins| - 1]);
      if m.e.c.cs != Idle { UnservedClock(m.e, ins[|ins| - 1]); }
    }
  }

  lemma UnservedIsStranded(e: Regs)
    requires Unserved(e) && !e.p.valid && e.c.cs == CmdState.Wait && e.r.cs == RspIdle
    ensures Stranded(e)
  {
  }

  /** Whatever comes in from now on. */
  ghost predicate AlwaysStranded(e: Regs) { forall more: seq<Ins> :: Stranded(Timeout.Run(e, more)) }

  lemma StrandedMeansAlways(e: Regs)
    ensures AlwaysStranded(e) <==> Stranded(e)
  {
    if AlwaysStranded(e) {
      var now: seq<Ins> := [];
      assert Stranded(Timeout.Run(e, now));
    }
    if Stranded(e) {
      forall more: seq<Ins> ensures Stranded(Timeout.Run(e, more)) { StrandedForEver(e, more); }
    }
  }

  /**
   * A write that is past its response, with the receiver idle, is stranded for ever, whatever anybody does, if and
   * only if it was not cued by then.
   */
  lemma StrandedIffUncued(o: Order, resp: seq<Octet>, s: Sys, ins: seq<Ins>)
    requires Answers(o, resp) && Fresh(s) && LegalRun(o, resp, s, ins) && WriteIndex(o.idx, o.arg) && o.rspTyp != R0
    requires Run(s, ins).e.c.cs == CmdState.Wait && Run(s, ins).e.r.cs == RspIdle
    ensures AlwaysStranded(Run(s, ins).e) <==> !Cued(s, ins)
  {
    ValidIffCued(o, resp, s, ins);
    StrandedMeansAlways(Run(s, ins).e);
    if !Cued(s, ins) {
      StaysUnserved(o, resp, s, ins);
      UnservedIsStranded(Run(s, ins).e);
    }
  }

  // ---------------------------------------------------------------- a read

  /** The card's response is in, and the receiver past it, before the read's last word is in memory. */
  ghost predicate ResponseFirst(o: Order, s: Sys, ins: seq<Ins>)
    decreases |ins|
  {
    ins == [] ||
    (var m := Run(s, ins[..|ins| - 1]);
     && ResponseFirst(o, s, ins[..|ins| - 1])
     && (m.e.p.waitRd && !Run(s, ins).e.p.waitRd ==> m.received == |Split(o.rspTyp)| && m.e.r.cs != RspCrc))
  }

  /** Until the response phase is over the read flag, once up, is still up. */
  predicate OnceRead(e: Regs, waited: bool) {
    && !e.p.waitWr
    && if e.c.cs == Rsp then waited ==> e.p.waitRd
       else if e.c.cs == CmdState.Wait || e.c.cs == Idle then true
       else !e.p.waitRd && !waited
  }

  lemma OnceReadKept(e: Regs, i: Ins, waited: bool)
    requires OnceRead(e, waited) && ReadIndex(i.csr.idx, i.csr.arg) && e.c.cs != Idle && !e.k.cmdRestart
    requires e.c.cs == Rsp && e.p.waitRd ==> Next(e, i).p.waitRd
    ensures var e' := Next(e, i); OnceRead(e', waited || e'.p.waitWr || e'.p.waitRd)
  {
  }

  lemma {:induction false} RunKeepsOnceRead(o: Order, resp: seq<Octet>, s: Sys, ins: seq<Ins>)
    requires Answers(o, resp) && Begun(s) && LegalRun(o, resp, s, ins) && ResponseFirst(o, s, ins)
    requires Resting(s.e.p) && ReadIndex(o.idx, o.arg) && !Missed(o, Run(s, ins))
    ensures OnceRead(Run(s, ins).e, Waited(s, ins))
    decreases |ins|
  {
    if ins != [] {
      var last := |ins| - 1;
      var m := Run(s, ins[..last]);
      RunKeepsInv(o, resp, s, ins[..last]);
      if Missed(o, m) { MissedForEver(o, resp, s, ins, last); }
      RunKeepsOnceRead(o, resp, s, ins[..last]);
      if m.e.c.cs != Idle { OnceReadKept(m.e, ins[last], Waited(s, ins[..last])); }
    }
  }

  /** What the read path asks of the SERDES. */
  predicate Serves(l: T.Line, i: P.Ins) {
    && (l.p.waitRd ==> R.Answers(l, i))
    && (l.p.waitRd && l.p.cs == P.Wait && !i.clkVld ==> l.owed == 0)
  }

  /** What it asks of the command half comes of a response that ends before the data and whose end is not missed. */
  lemma ReadIsLegal(o: Order, resp: seq<Octet>, s: Sys, ins: seq<Ins>, i: Ins, l: T.Line)
    requires Answers(o, resp) && Begun(s) && LegalRun(o, resp, s, ins) && ResponseFirst(o, s, ins)
    requires Resting(s.e.p) && ReadIndex(o.idx, o.arg) && !Missed(o, Run(s, ins)) && Legal(o, resp, Run(s, ins), i)
    requires l.p == Run(s, ins).e.p && l.started == Waited(s, ins) && Serves(l, PIns(Run(s, ins).e, i))
    ensures R.Legal(l, PIns(Run(s, ins).e, i))
  {
    RunKeepsOnceRead(o, resp, s, ins);
  }
}
