/** The exact bounds of the response and data timers, and what a restart pulse does. */
module Timeout {
  import opened Arith
  import opened Words
  import P = Payload
  import opened CommandProc

  function Run(s: Regs, ins: seq<Ins>): Regs
    decreases |ins|
  {
    if ins == [] then s else Next(Run(s, ins[..|ins| - 1]), ins[|ins| - 1])
  }

  /** eMMC clock pulses during a run. */
  function Pulses(ins: seq<Ins>): nat {
    if ins == [] then 0 else Pulses(ins[..|ins| - 1]) + Bit(ins[|ins| - 1].cmd.ckp)
  }

  /** Pulses the timer has seen, k clocks before the end of the run: all but those of the clock that arms it. */
  function Earlier(ins: seq<Ins>, k: nat): nat {
    if k < |ins| then Pulses(ins[1..|ins| - k]) else 0
  }

  /** The first clock of the wait for a response, nothing running yet. */
  predicate Armed(s: Regs) {
    && s.r.cs == RspStart && !s.m.en && !s.m.mask && !s.m.hit && !s.m.rspGt && !s.m.datGt
    && s.m.tmr0 == 0 && s.m.tmr1 == 0 && s.k.cs == RecIdle && !s.k.cmdRestart
  }

  /** The card drives nothing the data side listens to, and no data phase has timed out first. */
  predicate DataSilent(m: Regs, i: Ins) {
    && (m.m.datGt ==> m.m.rspGt)
    && (m.p.cs == P.Rsp ==> !i.pld.rxValid || i.pld.rxEnd)
    && (m.p.cs == P.Data && m.p.waitRd ==> !i.pld.rxValid && m.p.lineFree)
  }

  /** No response word arrives, and the timeout value is v of a counter with w states. */
  predicate SilentClock(m: Regs, i: Ins, v: nat, w: nat) {
    DataSilent(m, i) && !i.cmd.rxValid && i.csr.cmdTimeout == v && i.csr.tmrMod == w
  }

  ghost predicate Silent(s: Regs, ins: seq<Ins>, v: nat, w: nat)
    decreases |ins|
  {
    ins == [] ||
    (Silent(s, ins[..|ins| - 1], v, w) && SilentClock(Run(s, ins[..|ins| - 1]), ins[|ins| - 1], v, w))
  }

  /** The timeout flag has been up at some clock of the run. */
  ghost predicate Expired(s: Regs, ins: seq<Ins>)
    decreases |ins|
  {
    Run(s, ins).m.rspGt || (ins != [] && Expired(s, ins[..|ins| - 1]))
  }

  // ---------------------------------------------------------------- the counters in closed form

  /** The timer and its flag when q pulses were seen, q1 a clock earlier and q2 a clock before that. */
  ghost predicate Counted(m: Timer, flag: bool, q: nat, q1: nat, q2: nat, v: nat, w: nat)
    requires 1 <= w
  {
    && q2 <= q1 <= q <= q1 + 1 && m.en
    && m.tmr0 == q % 32 && m.hit == (q / 32 != q1 / 32) && m.tmr1 == q1 / 32 % w && flag == (q2 / 32 % w > v)
  }

  /** One clock of a running timer that nothing stops, register by register. */
  predicate TimerTicks(m: Timer, ckp: bool, z: Timer, flag: bool, v: nat, w: nat)
    requires w >= 1
  {
    && z.en && z.tmr0 == (m.tmr0 + Bit(ckp)) % 32 && z.hit == (m.tmr0 == 31 && ckp)
    && z.tmr1 == (m.tmr1 + Bit(m.hit)) % w && flag == (m.tmr1 > v)
  }

  /** A wait for a response goes on. */
  predicate Awaiting(z: Regs) { z.r.cs == RspStart && z.m.mask && !z.k.cmdRestart && z.k.cs == RecIdle }

  ghost predicate Counting(z: Regs, q: nat, q1: nat, q2: nat, v: nat, w: nat)
    requires 1 <= w
  {
    Awaiting(z) && Counted(z.m, z.m.rspGt, q, q1, q2, v, w)
  }

  lemma TimerStep(m: Regs, i: Ins, v: nat, w: nat)
    requires Awaiting(m) && m.m.en && !m.m.rspGt && SilentClock(m, i, v, w) && w >= 1
    ensures Awaiting(Next(m, i)) && TimerTicks(m.m, i.cmd.ckp, Next(m, i).m, Next(m, i).m.rspGt, v, w)
  {
  }

  lemma Carry(q: nat, c: nat)
    requires c <= 1
    ensures (q % 32 + c) % 32 == (q + c) % 32
    ensures (q % 32 == 31 && c == 1) <==> (q + c) / 32 != q / 32
    ensures (q + c) / 32 == q / 32 + (if (q + c) / 32 != q / 32 then 1 else 0)
  {
  }

  /** The upper counter follows the pulse groups, one group at a time. */
  lemma GroupStep(g: nat, g': nat, w: nat)
    requires 1 <= w && g <= g' <= g + 1
    ensures (g % w + Bit(g' != g)) % w == g' % w
  {
    if g' == g { ModTwice(g, w); } else { ModSucc(g, w); }
  }

  lemma CountStep(m: Timer, was: bool, ckp: bool, z: Timer, flag: bool, q: nat, q1: nat, q2: nat, v: nat, w: nat)
    requires 1 <= w && Counted(m, was, q, q1, q2, v, w) && TimerTicks(m, ckp, z, flag, v, w)
    ensures Counted(z, flag, q + Bit(ckp), q, q1, v, w)
  {
    var hit, g, g' := m.hit, q1 / 32, q / 32;
    GroupStep(g, g', w);
    Carry(q, Bit(ckp));
    assert hit <==> g' != g;
    assert z.tmr1 == q / 32 % w;
  }

  lemma CountClock(m: Regs, i: Ins, q: nat, q1: nat, q2: nat, v: nat, w: nat)
    requires 1 <= w && Counting(m, q, q1, q2, v, w) && !m.m.rspGt && SilentClock(m, i, v, w)
    ensures Counting(Next(m, i), q + Bit(i.cmd.ckp), q, q1, v, w)
  {
    TimerStep(m, i, v, w);
    CountStep(m.m, m.m.rspGt, i.cmd.ckp, Next(m, i).m, Next(m, i).m.rspGt, q, q1, q2, v, w);
  }

  /** The clock that arms the timer. */
  lemma ArmStep(s: Regs, i: Ins, v: nat, w: nat)
    requires Armed(s) && 1 <= w && SilentClock(s, i, v, w)
    ensures Counting(Next(s, i), 0, 0, 0, v, w)
  {
  }

  lemma EarlierFirst(ins: seq<Ins>)
    requires |ins| == 1
    ensures Earlier(ins, 0) == Earlier(ins, 1) == Earlier(ins, 2) == 0
  {
  }

  lemma PulsesStep(ins: seq<Ins>, n: nat)
    requires 1 <= n < |ins|
    ensures Pulses(ins[1..n + 1]) == Pulses(ins[1..n]) + Bit(ins[n].cmd.ckp)
  {
    assert ins[1..n + 1][..n - 1] == ins[1..n];
  }

  lemma EarlierStep(ins: seq<Ins>)
    requires |ins| >= 2
    ensures var before := ins[..|ins| - 1];
            && Earlier(ins, 0) == Earlier(before, 0) + Bit(ins[|ins| - 1].cmd.ckp)
            && Earlier(ins, 1) == Earlier(before, 0) && Earlier(ins, 2) == Earlier(before, 1)
            && Earlier(before, 2) <= Earlier(before, 1) <= Earlier(before, 2) + 1
  {
    var n, before := |ins|, ins[..|ins| - 1];
    PulsesStep(ins, n - 1);
    assert before[1..] == before[1..n - 1] == ins[1..n - 1];
    if n >= 3 {
      assert before[1..n - 2] == ins[1..n - 2];
      if n >= 4 {
        PulsesStep(ins, n - 3);
        assert before[1..n - 3] == ins[1..n - 3];
      }
    }
  }

  lemma SilentParts(s: Regs, ins: seq<Ins>, v: nat, w: nat)
    requires ins != [] && Silent(s, ins, v, w) && !Expired(s, ins[..|ins| - 1])
    ensures var before := ins[..|ins| - 1];
            && Silent(s, before, v, w) && SilentClock(Run(s, before), ins[|ins| - 1], v, w)
            && !Run(s, before).m.rspGt && (before != [] ==> !Expired(s, before[..|before| - 1]))
  {
  }

  lemma CountersMore(m: Regs, ins: seq<Ins>, v: nat, w: nat)
    requires |ins| >= 2 && 1 <= w && !m.m.rspGt && SilentClock(m, ins[|ins| - 1], v, w)
    requires var before := ins[..|ins| - 1];
             Counting(m, Earlier(before, 0), Earlier(before, 1), Earlier(before, 2), v, w)
    ensures Counting(Next(m, ins[|ins| - 1]), Earlier(ins, 0), Earlier(ins, 1), Earlier(ins, 2), v, w)
  {
    var before := ins[..|ins| - 1];
    EarlierStep(ins);
    CountClock(m, ins[|ins| - 1], Earlier(before, 0), Earlier(before, 1), Earlier(before, 2), v, w);
  }

  lemma {:induction false} CountersInClosedForm(s: Regs, ins: seq<Ins>, v: nat, w: nat)
    requires Armed(s) && 1 <= w && Silent(s, ins, v, w) && ins != [] && !Expired(s, ins[..|ins| - 1])
    ensures Counting(Run(s, ins), Earlier(ins, 0), Earlier(ins, 1), Earlier(ins, 2), v, w)
    decreases |ins|
  {
    var before, i := ins[..|ins| - 1], ins[|ins| - 1];
    var m := Run(s, before);
    SilentParts(s, ins, v, w);
    if before == [] {
      ArmStep(s, i, v, w);
      EarlierFirst(ins);
    } else {
      CountersInClosedForm(s, before, v, w);
      CountersMore(m, ins, v, w);
    }
    assert Run(s, ins) == Next(m, i);
  }

  /** What the comparison with v says on the first clock it can say something new. */
  lemma Threshold(q: nat, q1: nat, v: nat, w: nat)
    requires v < w && q <= q1 <= q + 1 && (v + 1 < w ==> q < 32 * (v + 1))
    ensures q1 / 32 % w > v <==> v + 1 < w && q1 >= 32 * (v + 1)
  {
    if v + 1 < w { assert q1 / 32 <= v + 1; }
  }

  /**
   * The flag comes up exactly when the 32(v+1)-th pulse is two whole clocks past, for every value but the
   * counter's top one; there it never does.
   */
  lemma {:induction false} ExactTimeout(s: Regs, ins: seq<Ins>, v: nat, w: nat)
    requires Armed(s) && v < w && Silent(s, ins, v, w)
    ensures Expired(s, ins) <==> v + 1 < w && Earlier(ins, 2) >= 32 * (v + 1)
    decreases |ins|
  {
    if ins != [] {
      var before := ins[..|ins| - 1];
      ExactTimeout(s, before, v, w);
      if |ins| >= 2 { EarlierStep(ins); }
      if !Expired(s, before) {
        CountersInClosedForm(s, ins, v, w);
        Threshold(Earlier(before, 2), Earlier(ins, 2), v, w);
      }
    }
  }

  // ---------------------------------------------------------------- the data timer

  /** A read's data phase: the command waits for it, and the response is over. */
  predicate Reading(s: Regs) {
    && s.c.cs == CmdState.Wait && !s.c.detDone && s.p.waitRd && s.p.lineFree
    && s.r.cs != RspStart && s.r.cs != RspArg && !(s.r.cs == RspIdle && s.r.cmdDone)
    && !s.m.mask && !s.m.rspGt && s.k.cs == RecIdle && !s.k.cmdRestart
  }

  /** The first clock of a read block's wait for its data, no timer running. */
  predicate DataArmed(s: Regs) {
    && Reading(s) && s.p.cs == P.Data && s.p.rdNotStarted && !s.m.en && !s.m.hit && !s.m.datGt
    && s.m.tmr0 == 0 && s.m.tmr1 == 0
  }

  /** The payload machine waits in its data state, nothing comes and the line stays high; the data timeout is v. */
  predicate DataSilentClock(m: Regs, i: Ins, v: nat, w: nat) {
    && m.p.cs == P.Data && !i.pld.rxValid && i.pld.datLine && i.csr.datTimeout == v && i.csr.tmrMod == w
  }

  ghost predicate SilentOnData(s: Regs, ins: seq<Ins>, v: nat, w: nat)
    decreases |ins|
  {
    ins == [] ||
    (SilentOnData(s, ins[..|ins| - 1], v, w) && DataSilentClock(Run(s, ins[..|ins| - 1]), ins[|ins| - 1], v, w))
  }

  ghost predicate DataExpired(s: Regs, ins: seq<Ins>)
    decreases |ins|
  {
    Run(s, ins).m.datGt || (ins != [] && DataExpired(s, ins[..|ins| - 1]))
  }

  ghost predicate DataCounting(z: Regs, q: nat, q1: nat, q2: nat, v: nat, w: nat)
    requires 1 <= w
  {
    Reading(z) && Counted(z.m, z.m.datGt, q, q1, q2, v, w)
  }

  lemma DataTimerStep(m: Regs, i: Ins, v: nat, w: nat)
    requires Reading(m) && m.m.en && !m.m.datGt && DataSilentClock(m, i, v, w) && w >= 1
    ensures Reading(Next(m, i)) && TimerTicks(m.m, i.cmd.ckp, Next(m, i).m, Next(m, i).m.datGt, v, w)
  {
  }

  lemma DataArmStep(s: Regs, i: Ins, v: nat, w: nat)
    requires DataArmed(s) && 1 <= w && DataSilentClock(s, i, v, w)
    ensures DataCounting(Next(s, i), 0, 0, 0, v, w)
  {
  }

  lemma DataCountClock(m: Regs, i: Ins, q: nat, q1: nat, q2: nat, v: nat, w: nat)
    requires 1 <= w && DataCounting(m, q, q1, q2, v, w) && !m.m.datGt && DataSilentClock(m, i, v, w)
    ensures DataCounting(Next(m, i), q + Bit(i.cmd.ckp), q, q1, v, w)
  {
    DataTimerStep(m, i, v, w);
    CountStep(m.m, m.m.datGt, i.cmd.ckp, Next(m, i).m, Next(m, i).m.datGt, q, q1, q2, v, w);
  }

  lemma SilentOnDataParts(s: Regs, ins: seq<Ins>, v: nat, w: nat)
    requires ins != [] && SilentOnData(s, ins, v, w) && !DataExpired(s, ins[..|ins| - 1])
    ensures var before := ins[..|ins| - 1];
            && SilentOnData(s, before, v, w) && DataSilentClock(Run(s, before), ins[|ins| - 1], v, w)
            && !Run(s, before).m.datGt && (before != [] ==> !DataExpired(s, before[..|before| - 1]))
  {
  }

  lemma DataCountersMore(m: Regs, ins: seq<Ins>, v: nat, w: nat)
    requires |ins| >= 2 && 1 <= w && !m.m.datGt && DataSilentClock(m, ins[|ins| - 1], v, w)
    requires var before := ins[..|ins| - 1];
             DataCounting(m, Earlier(before, 0), Earlier(before, 1), Earlier(before, 2), v, w)
    ensures DataCounting(Next(m, ins[|ins| - 1]), Earlier(ins, 0), Earlier(ins, 1), Earlier(ins, 2), v, w)
  {
    var before := ins[..|ins| - 1];
    EarlierStep(ins);
    DataCountClock(m, ins[|ins| - 1], Earlier(before, 0), Earlier(before, 1), Earlier(before, 2), v, w);
  }

  lemma {:induction false} DataCountersInClosedForm(s: Regs, ins: seq<Ins>, v: nat, w: nat)
    requires DataArmed(s) && 1 <= w && SilentOnData(s, ins, v, w) && ins != [] && !DataExpired(s, ins[..|ins| - 1])
    ensures DataCounting(Run(s, ins), Earlier(ins, 0), Earlier(ins, 1), Earlier(ins, 2), v, w)
    decreases |ins|
  {
    var before, i := ins[..|ins| - 1], ins[|ins| - 1];
    var m := Run(s, before);
    SilentOnDataParts(s, ins, v, w);
    if before == [] {
      DataArmStep(s, i, v, w);
      EarlierFirst(ins);
    } else {
      DataCountersInClosedForm(s, before, v, w);
      DataCountersMore(m, ins, v, w);
    }
    assert Run(s, ins) == Next(m, i);
  }

  /**
   * The data flag comes up exactly when the 32(v+1)-th pulse is two whole clocks past, for every value but the
   * counter's top one, and whatever the command timeout is.
   */
  lemma {:induction false} ExactDataTimeout(s: Regs, ins: seq<Ins>, v: nat, w: nat)
    requires DataArmed(s) && v < w && SilentOnData(s, ins, v, w)
    ensures DataExpired(s, ins) <==> v + 1 < w && Earlier(ins, 2) >= 32 * (v + 1)
    decreases |ins|
  {
    if ins != [] {
      var before := ins[..|ins| - 1];
      ExactDataTimeout(s, before, v, w);
      if |ins| >= 2 { EarlierStep(ins); }
      if !DataExpired(s, before) {
        DataCountersInClosedForm(s, ins, v, w);
        Threshold(Earlier(before, 2), Earlier(ins, 2), v, w);
      }
    }
  }

  /** It begins a recovery, too. */
  lemma DataExpiryStartsRecovery(s: Regs, ins: seq<Ins>, v: nat, w: nat)
    requires DataArmed(s) && 1 <= w && SilentOnData(s, ins, v, w)
    requires ins != [] && DataExpired(s, ins) && !DataExpired(s, ins[..|ins| - 1])
    ensures Recovering(Run(s, ins), 0)
  {
    DataCountersInClosedForm(s, ins, v, w);
  }

  /** A timer that is off and at zero. */
  predicate Off(m: Timer) { !m.en && m.tmr0 == 0 && m.tmr1 == 0 && !m.hit }

  /** The start beat of a read block arms the timer. */
  lemma StartArms(s: Regs, i: Ins)
    requires Reading(s) && s.p.cs == P.Start && s.p.valid && i.pld.ready && i.pld.datLine && Off(s.m) && !s.m.datGt
    requires !s.p.rdNotStarted
    ensures DataArmed(Next(s, i))
  {
  }

  /** What a running timer waits for has come: a response word, the card's answer to a block, data, or the start bit on
      the data line. */
  predicate Heeds(s: Regs, i: Ins) {
    || (s.r.cs == RspStart && i.cmd.rxValid)
    || (s.p.cs == P.Rsp && i.pld.rxValid && !i.pld.rxEnd)
    || (s.p.cs == P.Data && s.p.waitRd && (i.pld.rxValid || !s.p.lineFree))
  }

  /** Something asks for a timer on this clock: a response, the card's answer to a block unless in the bus test, or the
      data of a block that has not started; the first two ask only once for each wait. */
  predicate Calls(s: Regs, i: Ins) {
    && !s.m.mask
    && (|| s.r.cs == RspStart || (s.p.cs == P.Rsp && i.csr.idx != 19)
        || (s.p.rdNotStarted && s.c.cs == CmdState.Wait))
  }

  /** When what it waits for has come, the timer is off and at zero within three clocks, if nothing asks again. */
  lemma TimerGoesOff(s: Regs, i: Ins, i': Ins, i'': Ins)
    requires s.m.en && Heeds(s, i) && !Calls(Next(s, i), i') && !Calls(Next(Next(s, i), i'), i'')
    ensures Off(Next(Next(Next(s, i), i'), i'').m)
  {
  }

  /** A timer that is off raises no flag, and runs after a clock if and only if something asked for it. */
  lemma TimerStaysOff(s: Regs, i: Ins)
    requires Off(s.m)
    ensures !Calls(s, i) <==> Off(Next(s, i).m)
    ensures !Next(s, i).m.rspGt && !Next(s, i).m.datGt
  {
  }

  /** A read block in its data state, the response over and no recovery under way. */
  predicate InData(s: Regs) {
    && s.p.cs == P.Data && s.c.cs == CmdState.Wait && !s.c.detDone && s.p.waitRd
    && s.r.cs != RspStart && s.r.cs != RspArg && !(s.r.cs == RspIdle && s.r.cmdDone)
    && !s.m.rspGt && s.k.cs == RecIdle && !s.k.cmdRestart
  }

  /** The block's data, or its start bit, is seen. */
  predicate Begins(s: Regs, i: Ins) { i.pld.rxValid || !s.p.lineFree }

  lemma BegunClock(s: Regs, i: Ins)
    requires InData(s) && !s.m.datGt && Next(s, i).p.cs == P.Data
    ensures InData(Next(s, i)) && (Begins(s, i) || !s.p.rdNotStarted ==> !Next(s, i).p.rdNotStarted)
  {
  }

  /** The timer of a block whose data is seen is off three clocks later, if it did not run out by then. */
  lemma DataStopsTimer(s: Regs, i: Ins, i': Ins, i'': Ins)
    requires var s1 := Next(s, i); var s2 := Next(s1, i'); var s3 := Next(s2, i'');
             && InData(s) && Begins(s, i) && s1.p.cs == P.Data && s2.p.cs == P.Data && s3.p.cs == P.Data
             && s.m.en && !s.m.datGt && !s1.m.datGt && !s2.m.datGt
    ensures var s3 := Next(Next(Next(s, i), i'), i''); InData(s3) && Off(s3.m) && !s3.p.rdNotStarted
  {
    BegunClock(s, i);
    BegunClock(Next(s, i), i');
    BegunClock(Next(Next(s, i), i'), i'');
    TimerGoesOff(s, i, i', i'');
  }

  ghost predicate InDataThroughout(s: Regs, ins: seq<Ins>)
    decreases |ins|
  {
    Run(s, ins).p.cs == P.Data && (ins == [] || InDataThroughout(s, ins[..|ins| - 1]))
  }

  /** And then no data timeout comes for the rest of the block, however long it takes. */
  lemma {:induction false} NoTimeoutOnceBegun(s: Regs, ins: seq<Ins>)
    requires InData(s) && Off(s.m) && !s.m.datGt && !s.p.rdNotStarted && InDataThroughout(s, ins)
    ensures var z := Run(s, ins); InData(z) && Off(z.m) && !z.m.datGt && !z.p.rdNotStarted
    decreases |ins|
  {
    if ins != [] {
      NoTimeoutOnceBegun(s, ins[..|ins| - 1]);
      BegunClock(Run(s, ins[..|ins| - 1]), ins[|ins| - 1]);
      TimerStaysOff(Run(s, ins[..|ins| - 1]), ins[|ins| - 1]);
    }
  }

  // ---------------------------------------------------------------- the restart pulse

  /** Command, response and payload machines idle, nothing pending in either direction, not busy. */
  predicate Home(s: Regs) {
    && s.c.cs == Idle && !s.c.detStart && s.r.cs == RspIdle && !s.r.cmdDone
    && s.p.cs == P.Idle && !s.p.waitWr && !s.p.waitRd
  }

  predicate NoFlag(s: Regs) { !s.m.rspGt && !s.m.datGt }

  /** The state n clocks after a timeout flag was seen: one pulse of four clocks, everything home from the second. */
  predicate Recovering(s: Regs, n: nat) {
    match n
    case 0 => s.k.cs == RecIdle && !s.k.cmdRestart && !NoFlag(s)
    case 1 => s.k.cs == RecWait0 && s.k.cmdRestart
    case 2 => s.k.cs == RecWait1 && s.k.cmdRestart && Home(s) && s.c.detDone
    case 3 => s.k.cs == RecWait2 && s.k.cmdRestart && Home(s) && s.c.detDone && NoFlag(s)
    case 4 => s.k.cs == RecEnd && s.k.cmdRestart && Home(s) && s.c.detDone && NoFlag(s)
    case _ => s.k.cs == RecIdle && !s.k.cmdRestart && Home(s) && NoFlag(s)
  }

  /** Past the pulse, home is left only for a new command, and no second pulse follows. */
  lemma RecoveryClock(s: Regs, i: Ins, n: nat)
    requires Recovering(s, n) && (n >= 5 ==> !i.csr.start)
    ensures Recovering(Next(s, i), n + 1)
  {
  }

  /** A timeout makes exactly one pulse, and brings every machine home within its second clock. */
  lemma {:induction false} RestartHome(s: Regs, ins: seq<Ins>)
    requires Recovering(s, 0) && forall n :: 5 <= n < |ins| ==> !ins[n].csr.start
    ensures Recovering(Run(s, ins), |ins|)
    decreases |ins|
  {
    if ins != [] {
      RestartHome(s, ins[..|ins| - 1]);
      RecoveryClock(Run(s, ins[..|ins| - 1]), ins[|ins| - 1], |ins| - 1);
    }
  }

  lemma RestartClock(s: Regs, i: Ins, n: nat)
    requires Recovering(s, n)
    ensures Next(s, i).k.datRestart <==> if n == 0 then s.m.datGt else n != 4 && s.k.datRestart
  {
  }

  /** The data line's SERDES is restarted by that pulse if and only if it was the data that timed out. */
  lemma {:induction false} DataRestartIff(s: Regs, ins: seq<Ins>)
    requires Recovering(s, 0) && forall n :: 5 <= n < |ins| ==> !ins[n].csr.start
    ensures ins != [] ==> (Run(s, ins).k.datRestart <==> |ins| <= 4 && s.m.datGt)
    decreases |ins|
  {
    if ins != [] {
      var before := ins[..|ins| - 1];
      DataRestartIff(s, before);
      RestartHome(s, before);
      RestartClock(Run(s, before), ins[|ins| - 1], |before|);
    }
  }

  /** From the flag to the pulse: a run that has just expired is at the start of a recovery. */
  lemma ExpiryStartsRecovery(s: Regs, ins: seq<Ins>, v: nat, w: nat)
    requires Armed(s) && 1 <= w && Silent(s, ins, v, w)
    requires ins != [] && Expired(s, ins) && !Expired(s, ins[..|ins| - 1])
    ensures Recovering(Run(s, ins), 0)
  {
    CountersInClosedForm(s, ins, v, w);
  }
}
