/** A read command in which memory stalls: nineteen clocks, every one legal, after which a burst is short and a
    word is still in the write queue. */
module StalledRead {
  import opened Words
  import opened Geometry
  import opened Transfer
  import P = Payload
  import X = AxiManager
  import R = ReadPath

  /** Two eight-byte blocks, in a build for blocks of 256 to 512 bytes. */
  predicate Small(j: Job) { j.t == Tables(2, 8, 2, 1024, 0, 2, 256, 0) && !j.isWrite && !j.busTestWr }

  /** Register values and build parameters on offer that make it. */
  lemma SmallIsOffered(c: Csr)
    requires c == Csr(3, 2, 0, 0, 256, 512, 256)
    ensures Offered(c) && Decode(c) == Tables(2, 8, 2, 1024, 0, 2, 256, 0) && Sound(Decode(c))
  {
    SmallPowers();
    CounterRange(c);
  }

  /** A beat by its mark and the position of its word. */
  datatype Mark = Mark(last: bool, word: nat)

  datatype Snap = Snap(
    pcs: P.State, valid: bool, cntr: nat, last: bool, dcEn: bool, dcNum: nat, lastByte: nat, crcEn: bool,
    sent: nat, sentAll: bool, asks: nat, owed: nat, received: nat,
    xcs: X.State, fifo: seq<nat>, pending: bool, queue: seq<Mark>, wcntr: nat, wlast: bool, enough: bool,
    bursts: nat, burstsAll: bool, beats: seq<Mark>)

  function Cards(j: Job, ks: seq<nat>): (ws: seq<Word>)
    ensures |ws| == |ks| && forall n :: 0 <= n < |ks| ==> ws[n] == j.card(ks[n])
  {
    seq(|ks|, n requires 0 <= n < |ks| => j.card(ks[n]))
  }

  function Beats(j: Job, ms: seq<Mark>): (bs: seq<X.Beat>)
    ensures |bs| == |ms| && forall n :: 0 <= n < |ms| ==> bs[n] == X.Beat(ms[n].last, j.card(ms[n].word))
  {
    seq(|ms|, n requires 0 <= n < |ms| => X.Beat(ms[n].last, j.card(ms[n].word)))
  }

  /** The beats asked: two words and a CRC slot, over and over. */
  function Asks(n: nat): (bs: seq<P.AskBeat>)
    ensures |bs| == n && forall k :: 0 <= k < n ==> bs[k] == (if k % 3 == 2 then R.SLOT else R.WORD)
  {
    seq(n, k => if k % 3 == 2 then R.SLOT else R.WORD)
  }

  predicate LineAt(l: Line, a: Snap, n: nat) {
    && l.p.cs == a.pcs && l.p.valid == a.valid && (n > 0 ==> l.p.cntr == a.cntr) && l.p.last == a.last
    && l.p.dcEn == a.dcEn && l.p.dcNum == a.dcNum && l.p.lastByte == a.lastByte && l.p.crcEn == a.crcEn && !l.p.wr1rd0
    && l.p.blkCntr == a.sent && l.p.allDone == a.sentAll
    && l.p.waitRd == (0 < n < 19) && !l.p.waitWr && l.started == (n > 0)
    && l.asked == Asks(a.asks) && l.owed == a.owed && l.received == a.received
  }

  predicate BusAt(j: Job, b: Bus, a: Snap) {
    && b.x.cs == a.xcs && b.x.fifo == Cards(j, a.fifo) && b.x.fifoWren == a.pending
    && (a.pending ==> a.received > 0 && b.x.fifoWdata == j.card(a.received - 1))
    && b.x.queue == Beats(j, a.queue) && b.x.wcntr == a.wcntr && b.x.wlast == a.wlast
    && b.x.fifoCntr == |a.fifo| && b.x.memFree && b.x.gteqAxlen == a.enough
    && b.x.blkCntr == a.bursts && b.x.allDone == a.burstsAll && b.beats == Beats(j, a.beats)
    && b.x.axlenP1 == 2 && b.x.axlen == 1 && b.rdLeft == 0
  }

  predicate At(j: Job, s: Sys, n: nat) { LineAt(s.line, Expect(n), n) && BusAt(j, s.bus, Expect(n)) }

  /** The state after n clocks. */
  function Expect(n: nat): Snap {
    match n
    case 0 =>
      Snap(P.Idle, false, 0, false, true, 0, 0, false, 0, false, 0, 0, 0,
           X.Idle, [], false, [], 0, false, false, 0, false, [])
    case 1 =>
      Snap(P.Idle, false, 8, false, true, 0, 0, false, 0, false, 0, 0, 0,
           X.Idle, [], false, [], 0, false, false, 0, false, [])
    case 2 =>
      Snap(P.Start, true, 8, false, true, 0, 0, false, 0, false, 0, 0, 0,
           X.Wait, [], false, [], 0, false, false, 0, false, [])
    case 3 =>
      Snap(P.Data, true, 4, false, false, 0, 3, false, 0, false, 0, 0, 0,
           X.Wait, [], false, [], 1, true, false, 0, false, [])
    case 4 =>
      Snap(P.Data, true, 0, true, false, 0, 3, false, 0, false, 1, 1, 0,
           X.Wait, [], false, [], 1, false, false, 0, false, [])
    case 5 =>
      Snap(P.Crc, true, 1020, false, false, 0, 1, true, 1, false, 2, 1, 1,
           X.Wait, [], true, [], 1, false, false, 0, false, [])
    case 6 =>
      Snap(P.Dummy, true, 1020, false, true, 0, 0, false, 1, false, 3, 1, 2,
           X.Wait, [0], true, [], 1, false, false, 0, false, [])
    case 7 =>
      Snap(P.Dummy, true, 1020, false, true, 1, 0, false, 1, false, 3, 0, 2,
           X.Wait, [0, 1], false, [], 1, false, true, 0, false, [])
    case 8 =>
      Snap(P.Wait, false, 1020, false, false, 0, 0, false, 1, false, 3, 0, 2,
           X.Write, [0, 1], false, [], 1, false, true, 0, false, [])
    case 9 =>
      Snap(P.Idle, false, 1020, false, false, 0, 0, false, 1, false, 3, 0, 2,
           X.Done, [1], false, [Mark(false, 0)], 0, true, true, 1, false, [])
    case 10 =>
      Snap(P.Start, true, 8, false, true, 0, 0, false, 1, false, 3, 0, 2,
           X.Done, [1], false, [Mark(false, 0)], 0, true, true, 1, false, [])
    case 11 =>
      Snap(P.Data, true, 4, false, false, 0, 3, false, 1, false, 3, 0, 2,
           X.Done, [1], false, [Mark(false, 0)], 0, true, true, 1, false, [])
    case 12 =>
      Snap(P.Data, true, 0, true, false, 0, 3, false, 1, false, 4, 1, 2,
           X.Done, [1], false, [Mark(false, 0)], 0, true, true, 1, false, [])
    case 13 =>
      Snap(P.Crc, true, 1020, false, false, 0, 1, true, 2, false, 5, 1, 3,
           X.Done, [1], true, [Mark(false, 0)], 0, true, true, 1, false, [])
    case 14 =>
      Snap(P.Dummy, true, 1020, false, true, 0, 0, false, 2, true, 6, 1, 4,
           X.Done, [2], true, [Mark(true, 1)], 0, true, true, 1, false, [Mark(false, 0)])
    case 15 =>
      Snap(P.Dummy, true, 1020, false, true, 1, 0, false, 2, true, 6, 0, 4,
           X.Wait, [3], false, [Mark(true, 2)], 0, true, true, 1, false, [Mark(false, 0), Mark(true, 1)])
    case 16 =>
      Snap(P.Wait, false, 1020, false, false, 0, 0, false, 2, true, 6, 0, 4,
           X.Write, [3], false, [Mark(true, 2)], 1, true, true, 1, false, [Mark(false, 0), Mark(true, 1)])
    case 17 =>
      Snap(P.Wait, false, 1020, false, false, 0, 0, false, 2, true, 6, 0, 4,
           X.Done, [3], false, [Mark(true, 2)], 1, false, true, 2, false, [Mark(false, 0), Mark(true, 1)])
    case 18 =>
      Snap(P.Wait, false, 1020, false, false, 0, 0, false, 2, true, 6, 0, 4,
           X.Wait, [], false, [Mark(false, 3)], 0, true, true, 2, true, [Mark(false, 0), Mark(true, 1), Mark(true, 2)])
    case _ =>
      Snap(P.Idle, false, 1020, false, false, 0, 0, false, 2, true, 6, 0, 4,
           X.Wait, [], false, [Mark(false, 3)], 1, true, false, 2, true, [Mark(false, 0), Mark(true, 1), Mark(true, 2)])
  }

  /** Clock n: the response phase lasts two clocks, the card delivers without a gap, memory stalls until clock 13. */
  function Choice(n: nat): Env {
    var rx := n in {4, 5, 6, 12, 13, 14};
    Env(ready := true, rx := rx, rxEnd := n == 6 || n == 14, datLine := true, clkVld := false,
        cmdIdle := false, cmdRsp := n < 2, cmdWait := n >= 2, kick := false, restart := false,
        arready := false, rvalid := false, awready := true, wready := n >= 13)
  }

  lemma LineStart(j: Job, s: Sys, n: nat)
    requires Small(j) && 0 <= n < 5 && At(j, s, n)
    ensures LineAt(LineNext(j, s.line, PIns(j, s, Choice(n))), Expect(n + 1), n + 1)
    ensures R.Legal(s.line, PIns(j, s, Choice(n)))
  {
  }

  lemma BusBegin(j: Job, s: Sys, n: nat)
    requires Small(j) && 0 <= n < 3 && At(j, s, n)
    ensures BusAt(j, BusNext(j, s.bus, XIns(j, s, Choice(n))), Expect(n + 1))
  {
  }

  lemma BusStart(j: Job, s: Sys, n: nat)
    requires Small(j) && 3 <= n < 5 && At(j, s, n)
    ensures BusAt(j, BusNext(j, s.bus, XIns(j, s, Choice(n))), Expect(n + 1))
  {
  }

  lemma LineFill(j: Job, s: Sys, n: nat)
    requires Small(j) && 5 <= n < 7 && At(j, s, n)
    ensures LineAt(LineNext(j, s.line, PIns(j, s, Choice(n))), Expect(n + 1), n + 1)
    ensures R.Legal(s.line, PIns(j, s, Choice(n)))
  {
  }

  lemma BusFill(j: Job, s: Sys, n: nat)
    requires Small(j) && 5 <= n < 7 && At(j, s, n)
    ensures BusAt(j, BusNext(j, s.bus, XIns(j, s, Choice(n))), Expect(n + 1))
  {
  }

  lemma LineBurst(j: Job, s: Sys, n: nat)
    requires Small(j) && 7 <= n < 9 && At(j, s, n)
    ensures LineAt(LineNext(j, s.line, PIns(j, s, Choice(n))), Expect(n + 1), n + 1)
    ensures R.Legal(s.line, PIns(j, s, Choice(n)))
  {
  }

  lemma BusBurst(j: Job, s: Sys, n: nat)
    requires Small(j) && 7 <= n < 9 && At(j, s, n)
    ensures BusAt(j, BusNext(j, s.bus, XIns(j, s, Choice(n))), Expect(n + 1))
  {
  }

  lemma LineStall(j: Job, s: Sys, n: nat)
    requires Small(j) && 9 <= n < 13 && At(j, s, n)
    ensures LineAt(LineNext(j, s.line, PIns(j, s, Choice(n))), Expect(n + 1), n + 1)
    ensures R.Legal(s.line, PIns(j, s, Choice(n)))
  {
  }

  lemma BusHold(j: Job, s: Sys, n: nat)
    requires Small(j) && 9 <= n < 11 && At(j, s, n)
    ensures BusAt(j, BusNext(j, s.bus, XIns(j, s, Choice(n))), Expect(n + 1))
  {
  }

  lemma BusStall(j: Job, s: Sys, n: nat)
    requires Small(j) && 11 <= n < 13 && At(j, s, n)
    ensures BusAt(j, BusNext(j, s.bus, XIns(j, s, Choice(n))), Expect(n + 1))
  {
  }

  lemma LineDrain(j: Job, s: Sys, n: nat)
    requires Small(j) && 13 <= n < 16 && At(j, s, n)
    ensures LineAt(LineNext(j, s.line, PIns(j, s, Choice(n))), Expect(n + 1), n + 1)
    ensures R.Legal(s.line, PIns(j, s, Choice(n)))
  {
  }

  lemma BusDrain(j: Job, s: Sys, n: nat)
    requires Small(j) && 13 <= n < 16 && At(j, s, n)
    ensures BusAt(j, BusNext(j, s.bus, XIns(j, s, Choice(n))), Expect(n + 1))
  {
  }

  lemma LineEnd(j: Job, s: Sys, n: nat)
    requires Small(j) && 16 <= n < 19 && At(j, s, n)
    ensures LineAt(LineNext(j, s.line, PIns(j, s, Choice(n))), Expect(n + 1), n + 1)
    ensures R.Legal(s.line, PIns(j, s, Choice(n)))
  {
  }

  lemma BusEnd(j: Job, s: Sys, n: nat)
    requires Small(j) && 16 <= n < 19 && At(j, s, n)
    ensures BusAt(j, BusNext(j, s.bus, XIns(j, s, Choice(n))), Expect(n + 1))
  {
  }

  lemma Clock(j: Job, s: Sys, n: nat)
    requires Small(j) && n < 19 && At(j, s, n)
    ensures At(j, Step(j, s, Choice(n)), n + 1) && R.Legal(s.line, PIns(j, s, Choice(n)))
  {
    if n < 5 {
      LineStart(j, s, n);
      if n < 3 { BusBegin(j, s, n); } else { BusStart(j, s, n); }
    } else if n < 7 {
      LineFill(j, s, n);
      BusFill(j, s, n);
    } else if n < 9 {
      LineBurst(j, s, n);
      BusBurst(j, s, n);
    } else if n < 13 {
      LineStall(j, s, n);
      if n < 11 { BusHold(j, s, n); } else { BusStall(j, s, n); }
    } else if n < 16 {
      LineDrain(j, s, n);
      BusDrain(j, s, n);
    } else {
      LineEnd(j, s, n);
      BusEnd(j, s, n);
    }
  }

  function Choices(n: nat): (es: seq<Env>)
    ensures |es| == n
  {
    if n == 0 then [] else Choices(n - 1) + [Choice(n - 1)]
  }

  lemma {:induction false} RunTo(j: Job, s: Sys, n: nat)
    requires Small(j) && n <= 19 && At(j, s, 0)
    ensures At(j, Run(j, s, Choices(n)), n) && R.LegalRun(j, s, Choices(n))
  {
    if n > 0 {
      RunTo(j, s, n - 1);
      assert Choices(n)[..n - 1] == Choices(n - 1);
      Clock(j, Run(j, s, Choices(n - 1)), n - 1);
    }
  }

  /** The registers a moment after reset and one idle clock. */
  function Begin(): Sys {
    Sys(Line(P.Regs(P.Idle, 0, false, false, ALL_ONES, false, true, 0, 0, false, 0,
                    false, false, false, true, false, false, 0, false), [], 0, 0, 0, false, []),
        Bus(X.Regs(X.Idle, 2, 1, 0, false, 0, false, 0, [], [], 0, false, true, false, 0, false), 0, 0, 0, 0, [], []))
  }

  /** What the last snapshot says. */
  predicate Lost(j: Job, z: Sys) {
    && z.line.started && !z.line.p.waitRd && z.line.received == 4
    && z.bus.beats == [X.Beat(false, j.card(0)), X.Beat(true, j.card(1)), X.Beat(true, j.card(2))]
    && z.bus.x.queue == [X.Beat(false, j.card(3))]
  }

  lemma EndsLost(j: Job, z: Sys, n: nat)
    requires n == 19 && At(j, z, n)
    ensures Lost(j, z)
  {
    assert Expect(n).beats == [Mark(false, 0), Mark(true, 1), Mark(true, 2)] && Expect(n).queue == [Mark(false, 3)];
  }

  lemma Begun(j: Job) returns (s: Sys)
    requires Small(j)
    ensures Rest(s) && R.Settled(j, s.bus) && At(j, s, 0)
  {
    s := Begin();
  }

  /** The first n clocks of the run. */
  lemma StalledRun(j: Job, n: nat) returns (s: Sys, es: seq<Env>)
    requires Small(j) && n <= 19
    ensures Rest(s) && R.Settled(j, s.bus) && |es| == n && R.LegalRun(j, s, es) && At(j, Run(j, s, es), n)
  {
    s := Begun(j);
    es := Choices(n);
    RunTo(j, s, n);
  }

  /**
   * From rest, a legal run in which only the memory is slow ends the command with three of its four words written:
   * the second burst was announced with two beats and ended after one, and the last word is left in the write queue.
   */
  lemma WordIsLost(j: Job) returns (s: Sys, es: seq<Env>)
    requires Small(j)
    ensures Rest(s) && R.Settled(j, s.bus) && R.LegalRun(j, s, es) && Lost(j, Run(j, s, es))
  {
    s, es := StalledRun(j, 19);
    EndsLost(j, Run(j, s, es), 19);
  }
}
