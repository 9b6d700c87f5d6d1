/** The card clock: the divider the driver chooses, and the pulses the generator makes from it. */
module ClockRate {
  import opened Arith

  // ---------------------------------------------------------------- the driver's arithmetic

  /** new_rate, were there no bound on integers. */
  function Rate(sys: nat, f: nat): nat
    requires 0 < f
  {
    if f >= sys then 0 else (sys + 2 * f - 1) / (2 * f)
  }

  /** The range of the driver's unsigned integers. */
  const WRAP := 0x1_0000_0000

  /** new_rate as the driver computes it; the division has no meaning when twice the frequency wraps to zero. */
  function Rate32(sys: nat, f: nat): nat
    requires 2 * f % WRAP != 0
  {
    if f >= sys then 0 else (sys + 2 * f % WRAP + WRAP - 1) % WRAP / (2 * f % WRAP)
  }

  /** The wrap-around is harmless exactly when there is none, or the frequency is not below the system clock. */
  lemma WrapIff(sys: nat, f: nat)
    requires sys < WRAP && f < WRAP && 2 * f % WRAP != 0
    ensures Rate32(sys, f) == Rate(sys, f) <==> f >= sys || (2 * f < WRAP && sys + 2 * f - 1 < WRAP)
  {
    if f < sys {
      if 2 * f >= WRAP {
        DivModIs(2 * f, 1, 2 * f - WRAP, WRAP);
        LargeDivisor(sys, f, 2 * f - WRAP);
      } else {
        DivModIs(2 * f, 0, 2 * f, WRAP);
        SmallDivisor(sys, f, 2 * f);
      }
    }
  }

  /** A frequency of half the range or more: the true rate is one, the computed one never. */
  lemma LargeDivisor(sys: nat, f: nat, p: nat)
    requires p == 2 * f - WRAP && 0 < p && f < sys < WRAP
    ensures Rate(sys, f) == 1 && 2 * f % WRAP == p && Rate32(sys, f) != 1
  {
    DivModIs(sys + 2 * f - 1, 1, sys - 1, 2 * f);
    if sys + p - 1 < WRAP {
      DivModIs(sys + p - 1 + WRAP, 1, sys + p - 1, WRAP);
      Euclid(sys + p - 1, p);
    } else {
      DivModIs(sys + p - 1 + WRAP, 2, sys + p - 1 - WRAP, WRAP);
      DivModIs(sys + p - 1 - WRAP, 0, sys + p - 1 - WRAP, p);
    }
  }

  /** A smaller one: the sum wraps at most once, and each wrap takes at least one from the quotient. */
  lemma SmallDivisor(sys: nat, f: nat, p: nat)
    requires p == 2 * f == 2 * f % WRAP && 0 < p < WRAP && f < sys < WRAP
    ensures Rate32(sys, f) == Rate(sys, f) <==> sys + p - 1 < WRAP
  {
    var x := sys + p - 1;
    if x < WRAP {
      DivModIs(x + WRAP, 1, x, WRAP);
    } else {
      DivModIs(x + WRAP, 2, x - WRAP, WRAP);
      MoreThanOnce(x - WRAP, p);
    }
  }

  lemma MoreThanOnce(n: nat, p: nat)
    requires 0 < p < WRAP
    ensures (n + WRAP) / p > n / p
  {
    Euclid(n, p);
    Euclid(n + WRAP, p);
    if (n + WRAP) / p <= n / p { Product((n + WRAP) / p, n / p, p); }
  }

  /** emmc_sck_freq_khz as recorded in the handle. */
  function Recorded(sys: nat, r: nat): nat { if r == 0 then sys else sys / r / 2 }

  /** sys / (2r) does not exceed f. */
  predicate SlowEnough(sys: nat, r: nat, f: nat) { sys <= f * (2 * r) }

  /** The divider is the least one that is slow enough. */
  lemma RateIsLeast(sys: nat, f: nat)
    requires 0 < f < sys
    ensures Rate(sys, f) >= 1 && SlowEnough(sys, Rate(sys, f), f)
    ensures forall q: nat :: SlowEnough(sys, q, f) ==> Rate(sys, f) <= q
  {
    var p := 2 * f;
    var r := Rate(sys, f);
    Euclid(sys + p - 1, p);
    assert f * (2 * r) == r * p;
    forall q: nat | SlowEnough(sys, q, f) ensures r <= q {
      assert f * (2 * q) == q * p;
      if q < r { Product(q + 1, r, p); }
    }
  }

  lemma Product(a: nat, b: nat, p: nat)
    requires a <= b
    ensures a * p <= b * p && (a + 1) * p == a * p + p
  {
  }

  /** The recorded frequency is the exact quotient rounded down, and at most the one asked for. */
  lemma RecordedIsFloor(sys: nat, f: nat)
    requires 0 < f < sys
    ensures var r := Rate(sys, f);
            r >= 1 && Recorded(sys, r) == sys / (2 * r) && Recorded(sys, r) <= f
  {
    RateIsLeast(sys, f);
    var r := Rate(sys, f);
    var q := sys / r;
    Euclid(sys, r);
    Euclid(q, 2);
    Halves(sys, q, sys % r, r);
    assert sys / (2 * r) == q / 2;
    if q / 2 > f { Product(f + 1, q / 2, 2 * r); Euclid(sys, 2 * r); }
  }

  lemma Halves(n: nat, q: nat, l: nat, r: nat)
    requires l < r && n == q * r + l
    ensures n / (2 * r) == q / 2
  {
    var h, b := q / 2, q % 2;
    assert q * r == (2 * h + b) * r == h * (2 * r) + b * r;
    assert b * r + l < 2 * r by { if b == 1 { assert b * r == r; } else { assert b * r == 0; } }
    DivModIs(n, h, b * r + l, 2 * r);
  }

  // ---------------------------------------------------------------- the generator

  /** Counter modulus (2 to the divider's width) and whether dividing by one is built in. */
  datatype Build = Build(m: nat, useDiv1: bool)

  predicate Valid(b: Build) { 2 <= b.m }

  datatype Regs = Regs(cnt: nat, toggle: bool, gen: bool, pos: bool, neg: bool, eq0: bool)

  /** cur_clkdiv: the divider less one, in the counter's width. */
  function Top(b: Build, divider: nat): nat
    requires Valid(b)
  {
    (divider + b.m - 1) % b.m
  }

  function Next(b: Build, s: Regs, divider: nat): Regs
    requires Valid(b)
  {
    Regs(
      cnt := if s.cnt == Top(b, divider) then 0 else (s.cnt + 1) % b.m,
      toggle := s.cnt == Top(b, divider),
      gen := s.toggle != s.gen,
      pos := (s.toggle && !s.gen) || s.eq0,
      neg := (s.toggle && s.gen) || s.eq0,
      eq0 := b.useDiv1 && divider == 0)
  }

  /** The registers themselves, updated the way the clocked blocks do. */
  class ClockGen {
    const build: Build
    var divCnt: nat
    var clkToggle: bool
    var clkGen: bool
    var clkPos: bool
    var clkNeg: bool
    var clkdivEq0: bool

    constructor (build: Build)
      ensures this.build == build && State() == Regs(0, false, false, false, false, false)
    {
      this.build := build;
      divCnt, clkToggle, clkGen, clkPos, clkNeg, clkdivEq0 := 0, false, false, false, false, false;
    }

    function State(): Regs
      reads this
    {
      Regs(divCnt, clkToggle, clkGen, clkPos, clkNeg, clkdivEq0)
    }

    method Tick(divider: nat)
      requires Valid(build)
      modifies this
      ensures State() == Next(build, old(State()), divider)
    {
      var toggleNxt := divCnt == (divider + build.m - 1) % build.m;
      clkPos, clkNeg := (clkToggle && !clkGen) || clkdivEq0, (clkToggle && clkGen) || clkdivEq0;
      clkdivEq0 := build.useDiv1 && divider == 0;
      clkGen := if clkToggle then !clkGen else clkGen;
      clkToggle := toggleNxt;
      if toggleNxt {
        divCnt := 0;
      } else {
        divCnt := (divCnt + 1) % build.m;
      }
    }
  }

  /** The state after n clocks with a constant divider. */
  function Run(b: Build, s: Regs, divider: nat, n: nat): Regs
    requires Valid(b)
  {
    if n == 0 then s else Next(b, Run(b, s, divider, n - 1), divider)
  }

  /** Half the period the counter makes from a divider. */
  function Half(b: Build, divider: nat): nat { if divider == 0 then b.m else divider }

  lemma TopIsHalf(b: Build, d: nat)
    requires Valid(b) && d < b.m
    ensures Top(b, d) == Half(b, d) - 1
  {
    if d > 0 { DivModIs(d + b.m - 1, 1, d - 1, b.m); } else { DivModIs(b.m - 1, 0, b.m - 1, b.m); }
  }

  /** The counter is inside the period the divider makes. */
  predicate Settled(b: Build, d: nat, s: Regs) {
    s.cnt < Half(b, d) && s.toggle == (s.cnt == 0) && s.eq0 == (b.useDiv1 && d == 0)
  }

  /** Where in the period of 2 * Half clocks the generator is. */
  function Phase(h: nat, s: Regs): nat {
    if s.cnt == 0 then (if s.gen then h else 0) else s.cnt + (if s.gen then 0 else h)
  }

  lemma PhaseStep(b: Build, d: nat, s: Regs)
    requires Valid(b) && d < b.m && Settled(b, d, s)
    ensures var h, s' := Half(b, d), Next(b, s, d);
            && Settled(b, d, s') && Phase(h, s) < 2 * h
            && Phase(h, s') == (if Phase(h, s) + 1 == 2 * h then 0 else Phase(h, s) + 1)
  {
    TopIsHalf(b, d);
    if s.cnt + 1 < b.m { DivModIs(s.cnt + 1, 0, s.cnt + 1, b.m); }
  }

  lemma {:induction false} PhaseAfter(b: Build, d: nat, s: Regs, n: nat)
    requires Valid(b) && d < b.m && Settled(b, d, s)
    ensures var h := Half(b, d);
            0 < h && Settled(b, d, Run(b, s, d, n)) && Phase(h, Run(b, s, d, n)) == (Phase(h, s) + n) % (2 * h)
  {
    var h := Half(b, d);
    if n == 0 {
      PhaseStep(b, d, s);
      DivModIs(Phase(h, s), 0, Phase(h, s), 2 * h);
    } else {
      PhaseAfter(b, d, s, n - 1);
      PhaseStep(b, d, Run(b, s, d, n - 1));
      ModSucc(Phase(h, s) + n - 1, 2 * h);
      var p := Phase(h, Run(b, s, d, n - 1));
      if p + 1 < 2 * h { DivModIs(p + 1, 0, p + 1, 2 * h); } else { DivModIs(2 * h, 1, 0, 2 * h); }
    }
  }

  /** One rising pulse every 2h clocks, and a falling one exactly h clocks after each; no others. */
  lemma PulseTrain(b: Build, d: nat, s: Regs, n: nat)
    requires Valid(b) && d < b.m && Settled(b, d, s) && !s.eq0
    ensures var h := Half(b, d);
            && 0 < h
            && (Run(b, s, d, n + 1).pos <==> (Phase(h, s) + n) % (2 * h) == 0)
            && (Run(b, s, d, n + 1).neg <==> (Phase(h, s) + n) % (2 * h) == h)
  {
    PhaseAfter(b, d, s, n);
    PhaseStep(b, d, Run(b, s, d, n));
  }

  /** With dividing by one built in and selected, both pulses are on every clock. */
  lemma DivideByOne(b: Build, s: Regs, n: nat)
    requires Valid(b) && b.useDiv1
    ensures Run(b, s, 0, n + 2).pos && Run(b, s, 0, n + 2).neg
  {
    assert Run(b, s, 0, n + 1).eq0;
  }

  lemma {:induction false} CountsUp(b: Build, d: nat, s: Regs, k: nat, last: nat)
    requires Valid(b) && d < b.m && s.cnt + k <= last < b.m
    requires Top(b, d) < s.cnt || last <= Top(b, d)
    ensures Run(b, s, d, k).cnt == s.cnt + k
  {
    if k > 0 {
      CountsUp(b, d, s, k - 1, last);
      DivModIs(s.cnt + k, 0, s.cnt + k, b.m);
    }
  }

  lemma {:induction false} RunSplit(b: Build, d: nat, s: Regs, j: nat, k: nat)
    requires Valid(b)
    ensures Run(b, Run(b, s, d, j), d, k) == Run(b, s, d, j + k)
  {
    if k > 0 { RunSplit(b, d, s, j, k - 1); }
  }

  /** From a counter not above the top, the period is entered when the top is passed. */
  lemma SettlesUp(b: Build, d: nat, s: Regs)
    requires Valid(b) && d < b.m && s.cnt <= Top(b, d)
    ensures Settled(b, d, Run(b, s, d, Top(b, d) - s.cnt + 1))
  {
    TopIsHalf(b, d);
    CountsUp(b, d, s, Top(b, d) - s.cnt, Top(b, d));
  }

  /** After any change of divider the pulses are regular again within as many clocks as the counter has states. */
  lemma Resumes(b: Build, d: nat, s: Regs)
    requires Valid(b) && d < b.m && s.cnt < b.m
    ensures exists n :: 1 <= n <= b.m && Settled(b, d, Run(b, s, d, n))
  {
    TopIsHalf(b, d);
    if s.cnt <= Top(b, d) {
      SettlesUp(b, d, s);
    } else {
      var k := b.m - 1 - s.cnt;
      CountsUp(b, d, s, k, b.m - 1);
      DivModIs(b.m, 1, 0, b.m);
      assert Run(b, s, d, k + 1).cnt == 0;
      SettlesUp(b, d, Run(b, s, d, k + 1));
      RunSplit(b, d, s, k + 1, Top(b, d) + 1);
    }
  }

  // ---------------------------------------------------------------- end to end

  /** What of the driver's rate reaches the generator: its low bits. */
  function Programmed(b: Build, rate: nat): nat
    requires Valid(b)
  {
    rate % b.m
  }

  /**
   * A build without divide-by-one runs the card no faster than asked exactly when the rate needed is at most
   * the counter's range: beyond it the register keeps only the rate's low bits.
   */
  lemma NotTooFastIff(b: Build, sys: nat, f: nat)
    requires Valid(b) && 0 < f < sys
    ensures SlowEnough(sys, Half(b, Programmed(b, Rate(sys, f))), f) <==> Rate(sys, f) <= b.m
  {
    var r := Rate(sys, f);
    RateIsLeast(sys, f);
    Euclid(r, b.m);
    if r < b.m {
      DivModIs(r, 0, r, b.m);
    } else if r == b.m {
      DivModIs(r, 1, 0, b.m);
    } else {
      assert Half(b, Programmed(b, r)) <= b.m < r;
    }
  }

  /** Asking for at least the system clock programs zero, which such a build takes as its longest period. */
  lemma FastestIsSlowest(b: Build, sys: nat, f: nat)
    requires Valid(b) && 0 < f && f >= sys
    ensures Recorded(sys, Rate(sys, f)) == sys && Half(b, Programmed(b, Rate(sys, f))) == b.m
  {
    DivModIs(0, 0, 0, b.m);
  }
}
