/** Nothing of a finished command reaches the next one, and its bursts keep to the bus's rules. */
module Settling {
  import opened Arith
  import opened Words
  import opened Geometry
  import opened Transfer
  import P = Payload
  import X = AxiManager
  import W = WritePath
  import R = ReadPath

  /** Neither direction is active and every queue on the way is empty. */
  predicate Quiet(s: Sys) {
    && !s.line.p.waitWr && !s.line.p.waitRd && !s.line.p.wr1rd0 && !s.line.p.last
    && (s.line.p.cs == P.Wait || s.line.p.cs == P.Idle)
    && s.bus.x.fifo == [] && s.bus.x.queue == [] && !s.bus.x.fifoWren && s.bus.x.fifoCntr == 0
    && s.bus.rdLeft == 0
    && (s.bus.x.cs == X.Idle || (s.bus.x.cs == X.Wait && s.bus.x.allDone))
  }

  lemma FinishedIsQuiet(j: Job, s: Sys)
    requires W.Finished(j, s) || R.Finished(j, s)
    ensures Quiet(s)
  {
  }

  /** The same registers with an empty record, ready to run another command. */
  function Renew(s: Sys): Sys {
    Sys(Line(s.line.p, [], 0, 0, 0, false, []), Bus(s.bus.x, s.bus.rdAddr, s.bus.rdLeft, 0, 0, [], []))
  }

  predicate Still(e: Env) { !e.clkVld && !e.cmdRsp }

  lemma QuietStep(j: Job, s: Sys, e: Env)
    requires Quiet(s) && Still(e)
    ensures var s' := Step(j, s, e);
            && Quiet(s') && s'.line.p.blkCntr == 0 && s'.bus.x.cs == X.Idle
            && s'.line.p.allDone == (s.line.p.blkCntr == j.t.numBlocks)
            && (s.line.p.cs == P.Idle || !s.line.p.allDone ==> s'.line.p.cs == P.Idle)
            && (j.t.words >= 1 ==> !s'.bus.x.memAvail)
            && s'.bus.x.axlen == (s.bus.x.axlenP1 + 255) % 256
            && (s.bus.x.cs == X.Idle ==> s'.bus.x.axlenP1 == j.t.burstLen)
  {
  }

  /** How far the machines are back at rest after n quiet clocks. */
  predicate Cooling(j: Job, s: Sys, n: nat) {
    && Quiet(s)
    && (n >= 1 ==> s.line.p.blkCntr == 0 && s.bus.x.cs == X.Idle && !s.bus.x.memAvail)
    && (n >= 2 ==> !s.line.p.allDone && s.bus.x.axlenP1 == j.t.burstLen)
    && (n >= 3 ==> s.line.p.cs == P.Idle && s.bus.x.axlen == (j.t.burstLen + 255) % 256)
  }

  lemma CoolingStep(j: Job, s: Sys, e: Env, n: nat)
    requires 1 <= j.t.words && 1 <= j.t.numBlocks && Cooling(j, s, n) && Still(e)
    ensures Cooling(j, Step(j, s, e), n + 1)
  {
    QuietStep(j, s, e);
  }

  lemma {:induction false} CoolsDown(j: Job, s: Sys, es: seq<Env>)
    requires Sound(j.t) && Quiet(s) && forall e :: e in es ==> Still(e)
    ensures Cooling(j, Run(j, s, es), |es|)
    decreases |es|
  {
    if es != [] {
      CoolsDown(j, s, es[..|es| - 1]);
      CoolingStep(j, Run(j, s, es[..|es| - 1]), es[|es| - 1], |es| - 1);
    }
  }

  lemma CoolIsRest(j: Job, s: Sys)
    requires Sound(j.t) && Cooling(j, s, 3)
    ensures Rest(Renew(s)) && R.Settled(j, Renew(s).bus)
  {
  }

  /** Any three or more clocks without data clock or response phase bring both machines back to rest, settled. */
  lemma SettlesForNextCommand(j: Job, s: Sys, es: seq<Env>)
    requires Sound(j.t) && Quiet(s) && |es| >= 3 && forall e :: e in es ==> Still(e)
    ensures Rest(Renew(Run(j, s, es))) && R.Settled(j, Renew(Run(j, s, es)).bus)
  {
    CoolsDown(j, s, es);
    CoolIsRest(j, Run(j, s, es));
  }

  // ---------------------------------------------------------------- the address channels

  /** While an address waits to be taken it does not move, and it is the address of the burst in hand. */
  lemma ReadAddressHeld(j: Job, b: Bus, i: X.Ins)
    requires W.WriteJob(j) && W.FifoInv(j, b) && W.BusInv(j, b) && W.Fetching(j, b, i)
    requires b.x.cs == X.Read && !i.arready
    ensures BusNext(j, b, i).x.cs == X.Read
    ensures Request(b.x.addr, b.x.axlen + 1) == BurstReq(j, |b.reqs|)
    ensures Request(BusNext(j, b, i).x.addr, BusNext(j, b, i).x.axlen + 1) == BurstReq(j, |b.reqs|)
  {
    W.BusKept(j, b, i);
  }

  lemma WriteAddressHeld(j: Job, b: Bus, i: X.Ins, received: nat, owed: nat)
    requires R.ReadJob(j) && R.FifoInv(j, b, received, owed) && R.BusInv(j, b) && R.Draining(j, b, i, received)
    requires b.x.cs == X.Write && !i.awready
    ensures BusNext(j, b, i).x.cs == X.Write
    ensures Request(b.x.addr, b.x.axlen + 1) == BurstReq(j, |b.reqs|)
    ensures Request(BusNext(j, b, i).x.addr, BusNext(j, b, i).x.axlen + 1) == BurstReq(j, |b.reqs|)
  {
    R.BusKept(j, b, i, received, owed);
  }

  /** 4 KB in words. */
  const PAGE := 1024

  /** A burst length that divides the page. */
  predicate BurstSize(d: nat) { 1 <= d <= 256 && d * (PAGE / d) == PAGE }

  lemma SupportedBurstSize(c: Csr)
    requires Offered(c) && Pow2(c.blockLen) <= c.minBlock
    ensures BurstSize(Decode(c).words)
  {
    SmallPowers();
  }

  lemma Sum(x: nat, y: nat, d: nat)
    ensures (x + y) * d == x * d + y * d
  {
  }

  lemma Swapped(a: nat, m: nat, d: nat)
    ensures a * m * d == a * (d * m)
  {
  }

  lemma NextFits(b: nat, m: nat, d: nat)
    requires b < m
    ensures b * d + d <= d * m
  {
    Sum(b, 1, d);
    Sum(b + 1, m - (b + 1), d);
  }

  /** A multiple of d, apart by pages of m times d. */
  lemma PageOf(n: nat, d: nat, m: nat, page: nat) returns (a: nat, b: nat)
    requires 1 <= d && 1 <= m && d * m == page && n % d == 0
    ensures n == a * page + b * d && b * d + d <= page
  {
    var q := n / d;
    Euclid(n, d);
    Euclid(q, m);
    a, b := q / m, q % m;
    Sum(a * m, b, d);
    Swapped(a, m, d);
    NextFits(b, m, d);
  }

  lemma AlignedWithinPage(n: nat, d: nat)
    requires BurstSize(d) && n % d == 0
    ensures n / PAGE == (n + d - 1) / PAGE
  {
    assert PAGE / d >= 1;
    var a, b := PageOf(n, d, PAGE / d, PAGE);
    DivModIs(n, a, b * d, PAGE);
    DivModIs(n + d - 1, a, b * d + d - 1, PAGE);
  }

  lemma {:induction false} AddrAligned(j: Job, k: nat)
    requires BurstSize(j.t.words) && j.t.base % j.t.words == 0
    ensures (j.t.base + First(j, k)) % j.t.words == 0
  {
    if k > 0 {
      AddrAligned(j, k - 1);
      ModStep(j.t.base + First(j, k - 1), j.t.words);
    }
  }

  lemma ModStep(n: nat, d: nat)
    requires 1 <= d && n % d == 0
    ensures (n + d) % d == 0
  {
    Euclid(n, d);
    assert (n / d + 1) * d == n / d * d + d;
    DivModIs(n + d, n / d + 1, 0, d);
  }

  /** Wrapping at 2^30 words keeps alignment. */
  lemma WrapKeepsAlignment(n: nat, d: nat)
    requires BurstSize(d) && n % d == 0
    ensures n % AXI_WORDS % d == 0
  {
    var p := PAGE / d;
    var m := p * 0x10_0000;
    assert d * m == AXI_WORDS by { assert d * (p * 0x10_0000) == d * p * 0x10_0000; }
    assert m >= 1;
    var a, b := PageOf(n, d, m, AXI_WORDS);
    DivModIs(n, a, b * d, AXI_WORDS);
    DivModIs(b * d, b, 0, d);
  }

  /** A quarter of an aligned byte address is an aligned word address. */
  lemma QuarterAligned(n: nat, p: nat, d: nat)
    requires 1 <= d && p == 4 * d && n % p == 0
    ensures n / 4 % d == 0
  {
    var q := n / p;
    Euclid(n, p);
    Swapped(q, 4, d);
    assert n == 4 * (q * d);
    DivModIs(n, q * d, 0, 4);
    DivModIs(q * d, q, 0, d);
  }

  lemma BaseAligned(c: Csr)
    requires Offered(c) && Pow2(c.blockLen) <= c.minBlock && c.srcDst % Pow2(c.blockLen) == 0
    ensures var d := BlockWords(c); BurstSize(d) && BaseAddr(c) % d == 0
  {
    SupportedBurstSize(c);
    QuarterExact(c.blockLen);
    QuarterAligned(c.srcDst, Pow2(c.blockLen), BlockWords(c));
    WrapKeepsAlignment(c.srcDst / 4, BlockWords(c));
  }

  /** With a block-aligned address no burst of a transfer crosses a 4 KB boundary, for every block a build takes. */
  lemma BurstsKeepToPages(c: Csr, j: Job, k: nat)
    requires Offered(c) && Pow2(c.blockLen) <= c.minBlock && c.srcDst % Pow2(c.blockLen) == 0 && j.t == Decode(c)
    ensures var r := BurstReq(j, k); r.addr / PAGE == (r.addr + r.len - 1) / PAGE
  {
    BaseAligned(c);
    AddrAligned(j, k);
    WrapKeepsAlignment(j.t.base + First(j, k), j.t.words);
    AlignedWithinPage(Addr(j, First(j, k)), j.t.words);
  }
}
