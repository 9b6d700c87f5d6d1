/** The interrupt status register: set by triggers and by software, cleared by writing ones. */
module Interrupts {
  datatype Irq = Done | CmdCrc | DatCrc | BusWr | BusRd | CmdTimeout | DatTimeout

  /** The bits the driver calls errors: all but the lowest. */
  const ERRORS: set<Irq> := {CmdCrc, DatCrc, BusWr, BusRd, CmdTimeout, DatTimeout}

  datatype Write = NoWrite | Ack(bits: set<Irq>) | Set(bits: set<Irq>)

  /** One clock: what is written to the register, and what the hardware triggers. */
  datatype Clock = Clock(w: Write, trig: set<Irq>)

  /** A trigger wins over a clear on the same clock. */
  function Next(sts: set<Irq>, c: Clock): set<Irq> {
    (match c.w
     case NoWrite => sts
     case Ack(bits) => sts - bits
     case Set(bits) => sts + bits) + c.trig
  }

  function After(sts: set<Irq>, h: seq<Clock>): set<Irq> {
    if h == [] then sts else Next(After(sts, h[..|h| - 1]), h[|h| - 1])
  }

  predicate Raises(c: Clock, q: Irq) { q in c.trig || (c.w.Set? && q in c.w.bits) }
  predicate Clears(c: Clock, q: Irq) { c.w.Ack? && q in c.w.bits }

  /** Clocks lo up to hi of the history do not clear the bit. */
  predicate Uncleared(h: seq<Clock>, lo: nat, hi: nat, q: Irq)
    requires hi <= |h|
  {
    forall m :: lo <= m < hi ==> !Clears(h[m], q)
  }

  /** A bit is set exactly when something raised it at or after the last time it was cleared. */
  lemma {:induction false} SetIffRaisedSinceClear(sts: set<Irq>, h: seq<Clock>, q: Irq)
    ensures q in After(sts, h) <==>
            || (q in sts && Uncleared(h, 0, |h|, q))
            || (exists k :: 0 <= k < |h| && Raises(h[k], q) && Uncleared(h, k + 1, |h|, q))
  {
    if h != [] {
      var n, g := |h| - 1, h[..|h| - 1];
      SetIffRaisedSinceClear(sts, g, q);
      assert forall k :: 0 <= k <= n ==> (Uncleared(h, k, |h|, q) <==> Uncleared(g, k, n, q) && !Clears(h[n], q));
      if Raises(h[n], q) {
        assert Uncleared(h, n + 1, |h|, q);
      } else {
        assert q in After(sts, h) <==> q in After(sts, g) && !Clears(h[n], q);
        if exists k :: 0 <= k < n && Raises(g[k], q) && Uncleared(g, k + 1, n, q) {
          var k :| 0 <= k < n && Raises(g[k], q) && Uncleared(g, k + 1, n, q);
          assert Raises(h[k], q);
        }
        if k :| 0 <= k < |h| && Raises(h[k], q) && Uncleared(h, k + 1, |h|, q) {
          assert k < n && Raises(g[k], q);
        }
      }
    }
  }

  /** emmc_check_error_status: the value read after `before`, written back once `between` has passed. */
  function Report(sts: set<Irq>, before: seq<Clock>): set<Irq> { After(sts, before) }

  function CheckHistory(sts: set<Irq>, before: seq<Clock>, between: seq<Clock>, atWrite: set<Irq>): seq<Clock> {
    before + between + [Clock(Ack(Report(sts, before)), atWrite)]
  }

  /** What the call returns: failure exactly when some error bit was read. */
  predicate Succeeds(report: set<Irq>) { report * ERRORS == {} }

  /**
   * Read and write back loses no error: one raised since it was last cleared, before or during the call, makes
   * the call fail or is still set after it.
   */
  lemma CheckLosesNothing(sts: set<Irq>, before: seq<Clock>, between: seq<Clock>, atWrite: set<Irq>, q: Irq, k: nat)
    requires q in ERRORS
    requires var h := CheckHistory(sts, before, between, atWrite);
             k < |h| && Raises(h[k], q) && Uncleared(h, k + 1, |before| + |between|, q)
    ensures var h := CheckHistory(sts, before, between, atWrite);
            !Succeeds(Report(sts, before)) || q in After(sts, h)
  {
    var h := CheckHistory(sts, before, between, atWrite);
    var r := Report(sts, before);
    assert forall m :: 0 <= m < |before| ==> before[m] == h[m];
    if k < |before| {
      assert Raises(before[k], q) && Uncleared(before, k + 1, |before|, q);
      SetIffRaisedSinceClear(sts, before, q);
      assert q in r * ERRORS;
    } else if q in r {
      assert q in r * ERRORS;
    } else {
      assert Uncleared(h, k + 1, |h|, q);
      SetIffRaisedSinceClear(sts, h, q);
    }
  }
}
