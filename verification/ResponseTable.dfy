/** The table that tells the command processor which response to wait for, and what it does to SD initialisation. */
module ResponseTable {
  import opened Words
  import C = CommandProc
  import D = Driver
  import E = Exchange
  import R = Registers
  import S = SdCard

  const R1 := 1
  const R3 := 3
  const R5 := 5

  /** The response type decoded from a command index; an index not listed has none. */
  function ResponseOf(idx: nat): nat {
    match idx
    case 1 => R3
    case 2 => C.R2
    case 9 => C.R2
    case 10 => C.R2
    case 40 => R5
    case _ =>
      if || idx == 3 || 5 <= idx <= 8 || 12 <= idx <= 14 || 16 <= idx <= 19 || idx == 21 || 23 <= idx <= 31
         || idx == 35 || idx == 36 || idx == 38 || idx == 39 || idx == 42 || 44 <= idx <= 49 || 53 <= idx <= 56
      then R1 else C.R0
  }

  /** Every command that moves data has a response, which its data phase waits for or runs beside. */
  lemma DataIsAnswered(idx: nat, arg: Word)
    requires C.WriteIndex(idx, arg) || C.ReadIndex(idx, arg)
    ensures ResponseOf(idx) == R1
  {
  }

  /** Every command of the driver's common shape has a response, a long one exactly for the two long registers, and
      none of them is open-ended, to be stopped by another command. */
  lemma DriverIsAnswered(a: D.Api)
    ensures ResponseOf(D.Code(a)) != C.R0 && D.Code(a) != 18 && D.Code(a) != 25
    ensures ResponseOf(D.Code(a)) == C.R2 <==> a.SendCsd? || a.SendCid?
  {
  }

  // ---------------------------------------------------------------- a command without a response

  /** The response registers as they are cleared before a response. */
  predicate AllOnes(b: C.Capture) {
    b.b0 == 0x3F && b.d0 == ALL_ONES && b.d1 == ALL_ONES && b.d2 == ALL_ONES && b.d3 == ALL_ONES
  }

  predicate Silent(e: C.Regs) { e.c.cs == C.Wait || e.c.cs == C.Idle ==> AllOnes(e.s) }

  lemma SilentClock(o: E.Order, s: E.Sys, i: C.Ins)
    requires o.rspTyp == C.R0 && E.LineInv(o, s) && E.CountInv(o, s) && E.Legal(o, [], s, i) && Silent(s.e)
    requires s.e.c.cs != C.Idle
    ensures Silent(E.Step(s, i).e)
  {
  }

  /** A finished command without a response leaves all ones in the response registers, whatever the card sends. */
  lemma {:induction false} SilentLeavesOnes(o: E.Order, s: E.Sys, ins: seq<C.Ins>)
    requires o.rspTyp == C.R0 && E.Begun(s) && E.LegalRun(o, [], s, ins)
    ensures Silent(E.Run(s, ins).e) && E.Run(s, ins).received == 0
    decreases |ins|
  {
    E.RunKeepsInv(o, [], s, ins);
    if ins != [] {
      var m := E.Run(s, ins[..|ins| - 1]);
      SilentLeavesOnes(o, s, ins[..|ins| - 1]);
      E.RunKeepsInv(o, [], s, ins[..|ins| - 1]);
      if m.e.c.cs != C.Idle { SilentClock(o, m, ins[|ins| - 1]); }
    }
  }

  // ---------------------------------------------------------------- SD initialisation on this controller

  lemma {:induction false} RoundsAnswered(n: nat, k: nat)
    requires k < |S.Rounds(n)|
    ensures S.Rounds(n)[k] == 55 || S.Rounds(n)[k] == 41
  {
    if k < |S.Rounds(n - 1)| { RoundsAnswered(n - 1, k); }
  }

  lemma {:induction false} CidsAnswered(m: nat, k: nat)
    requires k < |S.Cids(m)|
    ensures S.Cids(m)[k] == 2
  {
    if k < |S.Cids(m - 1)| { CidsAnswered(m - 1, k); }
  }

  /** In a sequence of commands, what was read back of a command without a response is all ones, but for CMD0, of which
      nothing is read, and the last command, of which nothing may have been read yet. */
  predicate SilentReadsOnes(t: seq<R.Cmd>) {
    forall k :: 0 <= k < |t| - 1 && t[k].Cmd? && ResponseOf(t[k].code) == C.R0 && t[k].code != 0 ==>
      t[k].resp == ALL_ONES
  }

  /**
   * The table gives CMD41 no response, so its register reads back as all ones, which the driver takes for a card that
   * is ready and of high capacity: every initialisation makes at most one round, whatever the card's state, and goes
   * on with those operating conditions.
   */
  lemma {:induction false} OneRoundOnly(t: seq<R.Cmd>)
    requires S.StageOf(t) != S.Broken && SilentReadsOnes(t)
    ensures var s := S.StageOf(t);
            && S.RoundsOf(s) <= 1 && (s.App? ==> s.n == 0)
            && (s.OpCond? ==> t != [] && S.Last(t).Cmd? && S.Last(t).code == 41)
            && (s.Cid? || s.Addressed? || s.Selected? ==>
                  s.n == 1 && s.ocr == ALL_ONES && D.IsReady(s.ocr) && S.HighCapacity(s.ocr) == 1)
  {
    if t != [] {
      assert SilentReadsOnes(t[..|t| - 1]);
      OneRoundOnly(t[..|t| - 1]);
    }
  }
}
