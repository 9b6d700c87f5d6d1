/** Every beat the payload half hands to the SERDES for one block, in either direction, for any ready pattern. */
module BlockFrame {
  import opened Words
  import opened Geometry
  import opened Framing
  import P = Payload

  /** A beat as handed over: whether it drives the lines, drives or reads nothing, for how many clocks beyond the
      first if so, its bytes, whether it is the CRC slot, the lanes' code, and the word but for a CRC slot. */
  datatype Hand = Hand(drives: bool, silent: bool, gap: nat, bytes: nat, crc: bool, lanes: nat, word: Word)

  function HandOf(s: P.Regs): Hand {
    Hand(s.wr1rd0, s.dcEn, s.dcNum, s.lastByte + 1, s.crcEn, s.ioWidth, if s.crcEn then 0 else s.data)
  }

  /** A block in progress: the registers, the words put into the data register, those of them taken from the FIFO, and
      the beats handed over. */
  datatype Frame = Frame(p: P.Regs, words: seq<Word>, pops: seq<Word>, handed: seq<Hand>)

  /** A handshake that is followed by a data beat. */
  predicate Loads(s: P.Regs, i: P.Ins) { P.Handshake(s, i) && (s.cs == P.Start || (s.cs == P.Data && !s.last)) }

  function Step(t: Tables, f: Frame, i: P.Ins): Frame {
    var p' := P.Next(t, f.p, i);
    Frame(p',
          f.words + (if Loads(f.p, i) then [p'.data] else []),
          f.pops + (if P.MemRden(f.p, i) then [i.memRdat] else []),
          f.handed + (if P.Handshake(f.p, i) then [HandOf(f.p)] else []))
  }

  /** Clocks are taken until the block's wait state. */
  function Run(t: Tables, f: Frame, ins: seq<P.Ins>): Frame
    decreases |ins|
  {
    if ins == [] then f
    else
      var m := Run(t, f, ins[..|ins| - 1]);
      if m.p.cs == P.Wait then m else Step(t, m, ins[|ins| - 1])
  }

  // ---------------------------------------------------------------- what should be handed over

  /** What the data lines show before the block: the start bit on every lane in use, or nothing driven. */
  function Opening(t: Tables, write: bool): Word { if write then P.StartToken(t.ioWidth) else ALL_ONES }

  function DataHands(t: Tables, write: bool, words: seq<Word>): (hs: seq<Hand>)
    ensures |hs| == |words|
    ensures forall k :: 0 <= k < |words| ==> hs[k] == Hand(write, false, 0, 4, false, t.ioWidth, words[k])
  {
    seq(|words|, k requires 0 <= k < |words| => Hand(write, false, 0, 4, false, t.ioWidth, words[k]))
  }

  /** The start beat and the words of a block. */
  function Body(t: Tables, write: bool, words: seq<Word>): seq<Hand> {
    [Hand(false, true, 0, 1, false, t.ioWidth, Opening(t, write))] + DataHands(t, write, words)
  }

  /** Then one two-byte CRC slot, and two silent beats of one and two clocks, the second on one lane. */
  function Closing(t: Tables, write: bool): seq<Hand> {
    [Hand(write, false, 0, 2, true, t.ioWidth, 0), Hand(false, true, 0, 1, false, t.ioWidth, ALL_ONES),
     Hand(false, true, 1, 1, false, 0, ALL_ONES)]
  }

  /** After a written block the card's answer: one byte read on one lane, then silence. */
  function Answer(t: Tables, n: nat): (hs: seq<Hand>)
    ensures |hs| == n
  {
    if n == 0 then []
    else if n == 1 then [Hand(false, false, 0, 1, false, 0, ALL_ONES)]
    else Answer(t, n - 1) + [Hand(false, true, 0, 1, false, t.ioWidth, ALL_ONES)]
  }

  // ---------------------------------------------------------------- the invariant

  /** The block has just been begun. */
  predicate Begun(t: Tables, f: Frame) {
    && f.p.cs == P.Start && f.p.valid && f.p.waitWr != f.p.waitRd && !f.p.last && !f.p.wr1rd0 && f.p.dcEn
    && f.p.dcNum == 0 && f.p.lastByte == 0 && !f.p.crcEn && f.p.ioWidth == t.ioWidth && f.p.cntr == t.wdtInit
    && f.p.data == Opening(t, f.p.waitWr) && f.words == [] && f.pops == [] && f.handed == []
  }

  predicate Lines(p: P.Regs, drives: bool, silent: bool, gap: nat, bytes: nat, crc: bool, lanes: nat) {
    && p.wr1rd0 == drives && p.dcEn == silent && p.dcNum == gap && p.lastByte + 1 == bytes && p.crcEn == crc
    && p.ioWidth == lanes
  }

  ghost predicate Inv(t: Tables, f: Frame, blk: nat) {
    var w, n := f.p.waitWr, |f.words|;
    && f.p.waitWr != f.p.waitRd && f.pops == (if w then f.words else [])
    && (f.p.last ==> f.p.cs == P.Data) && (!w ==> forall k :: 0 <= k < n ==> f.words[k] == ALL_ONES)
    && match f.p.cs
       case Start => Begun(t, f) && f.p.blkCntr == blk
       case Data =>
         && f.p.valid && Lines(f.p, w, false, 0, 4, false, t.ioWidth) && f.p.blkCntr == blk && n >= 1
         && f.p.data == f.words[n - 1] && f.handed == Body(t, w, f.words[..n - 1])
         && n - 1 + (if f.p.last then 1 else BeatsLeft(f.p.cntr)) == BlockBeats(t)
       case Crc =>
         && f.p.valid && Lines(f.p, w, false, 0, 2, true, t.ioWidth) && f.p.blkCntr == blk + 1
         && f.handed == Body(t, w, f.words) && n == BlockBeats(t)
       case Dummy =>
         && f.p.valid && f.p.data == ALL_ONES && f.p.blkCntr == blk + 1 && n == BlockBeats(t)
         && f.p.dcNum < 2 && Lines(f.p, false, true, f.p.dcNum, 1, false, if f.p.dcNum == 0 then t.ioWidth else 0)
         && f.handed == Body(t, w, f.words) + Closing(t, w)[..1 + f.p.dcNum]
       case Rsp =>
         && w && f.p.valid && f.p.data == ALL_ONES && f.p.blkCntr == blk + 1 && n == BlockBeats(t)
         && var k := |f.handed| - n - 4;
            && k >= 0 && f.handed == Body(t, w, f.words) + Closing(t, w) + Answer(t, k)
            && Lines(f.p, false, k > 0, 0, 1, false, if k > 0 then t.ioWidth else 0)
       case Wait =>
         && f.p.blkCntr == blk + 1 && n == BlockBeats(t) && Handed(t, f)
         && f.p.ioWidth == (if |f.handed| > n + 4 then t.ioWidth else 0)
       case Idle => false
  }

  /** The block as it should have been handed over, with the beats of the card's answer for a write. */
  ghost predicate Handed(t: Tables, f: Frame) {
    var k := |f.handed| - |f.words| - 4;
    && k >= 0 && (!f.p.waitWr ==> k == 0)
    && f.handed == Body(t, f.p.waitWr, f.words) + Closing(t, f.p.waitWr) + Answer(t, k)
  }

  /** No restart, and no command of the other direction. */
  predicate Undisturbed(write: bool, i: P.Ins) { !i.restart && (if write then !i.readCmd else !i.writeCmd) }

  lemma StartKept(t: Tables, f: Frame, i: P.Ins, blk: nat)
    requires Inv(t, f, blk) && Undisturbed(f.p.waitWr, i) && f.p.cs == P.Start
    ensures Inv(t, Step(t, f, i), blk)
  {
  }

  lemma OneMoreWord(t: Tables, write: bool, words: seq<Word>)
    requires words != []
    ensures var n := |words| - 1;
            Body(t, write, words[..n]) + [Hand(write, false, 0, 4, false, t.ioWidth, words[n])] == Body(t, write, words)
  {
  }

  lemma DataKept(t: Tables, f: Frame, i: P.Ins, blk: nat)
    requires Inv(t, f, blk) && Undisturbed(f.p.waitWr, i) && f.p.cs == P.Data && !(f.p.last && i.ready)
    ensures Inv(t, Step(t, f, i), blk)
  {
    OneMoreWord(t, f.p.waitWr, f.words);
    if i.ready {
      assert Step(t, f, i).words[..|f.words|] == f.words;
    }
  }

  lemma LastDataKept(t: Tables, f: Frame, i: P.Ins, blk: nat)
    requires Inv(t, f, blk) && Undisturbed(f.p.waitWr, i) && f.p.cs == P.Data && f.p.last && i.ready
    ensures Inv(t, Step(t, f, i), blk)
  {
    OneMoreWord(t, f.p.waitWr, f.words);
  }

  lemma CrcKept(t: Tables, f: Frame, i: P.Ins, blk: nat)
    requires Inv(t, f, blk) && Undisturbed(f.p.waitWr, i) && f.p.cs == P.Crc
    ensures Inv(t, Step(t, f, i), blk)
  {
    assert Closing(t, f.p.waitWr)[..1] == [Closing(t, f.p.waitWr)[0]];
  }

  /** The silent beats one after another. */
  lemma ClosingSteps(t: Tables, write: bool, body: seq<Hand>)
    ensures var c := Closing(t, write);
            && body + c[..1] + [c[1]] == body + c[..2] && body + c[..2] + [c[2]] == body + c
            && body + c == body + c + Answer(t, 0)
  {
  }

  lemma DummyStalls(t: Tables, f: Frame, i: P.Ins, blk: nat)
    requires Inv(t, f, blk) && Undisturbed(f.p.waitWr, i) && f.p.cs == P.Dummy && !i.ready
    ensures Inv(t, Step(t, f, i), blk)
  {
  }

  lemma RspStalls(t: Tables, f: Frame, i: P.Ins, blk: nat)
    requires Inv(t, f, blk) && Undisturbed(f.p.waitWr, i) && f.p.cs == P.Rsp && !i.ready
    ensures Inv(t, Step(t, f, i), blk)
  {
  }

  lemma FirstDummyKept(t: Tables, f: Frame, i: P.Ins, blk: nat)
    requires Inv(t, f, blk) && Undisturbed(f.p.waitWr, i) && f.p.cs == P.Dummy && f.p.dcNum == 0 && i.ready
    ensures Inv(t, Step(t, f, i), blk)
  {
    ClosingSteps(t, f.p.waitWr, Body(t, f.p.waitWr, f.words));
  }

  lemma SecondDummyKept(t: Tables, f: Frame, i: P.Ins, blk: nat)
    requires Inv(t, f, blk) && Undisturbed(f.p.waitWr, i) && f.p.cs == P.Dummy && f.p.dcNum == 1 && i.ready
    ensures Inv(t, Step(t, f, i), blk)
  {
    ClosingSteps(t, f.p.waitWr, Body(t, f.p.waitWr, f.words));
  }

  lemma AnswerSteps(t: Tables, whole: seq<Hand>, k: nat, h: Hand)
    requires h == Hand(false, k > 0, 0, 1, false, if k > 0 then t.ioWidth else 0, ALL_ONES)
    ensures whole + Answer(t, k) + [h] == whole + Answer(t, k + 1)
  {
    assert Answer(t, k) + [h] == Answer(t, k + 1);
  }

  lemma RspKept(t: Tables, f: Frame, i: P.Ins, blk: nat)
    requires Inv(t, f, blk) && Undisturbed(f.p.waitWr, i) && f.p.cs == P.Rsp && i.ready
    ensures Inv(t, Step(t, f, i), blk)
  {
    AnswerSteps(t, Body(t, true, f.words) + Closing(t, true), |f.handed| - |f.words| - 4, HandOf(f.p));
  }

  lemma StepKept(t: Tables, f: Frame, i: P.Ins, blk: nat)
    requires Inv(t, f, blk) && Undisturbed(f.p.waitWr, i) && f.p.cs != P.Wait
    ensures Inv(t, Step(t, f, i), blk)
  {
    match f.p.cs
    case Start => StartKept(t, f, i, blk);
    case Data => if f.p.last && i.ready { LastDataKept(t, f, i, blk); } else { DataKept(t, f, i, blk); }
    case Crc => CrcKept(t, f, i, blk);
    case Dummy =>
      if !i.ready { DummyStalls(t, f, i, blk); }
      else if f.p.dcNum == 0 { FirstDummyKept(t, f, i, blk); }
      else { SecondDummyKept(t, f, i, blk); }
    case Rsp => if i.ready { RspKept(t, f, i, blk); } else { RspStalls(t, f, i, blk); }
  }

  lemma {:induction false} RunKept(t: Tables, f: Frame, ins: seq<P.Ins>)
    requires Begun(t, f) && forall i :: i in ins ==> Undisturbed(f.p.waitWr, i)
    ensures Inv(t, Run(t, f, ins), f.p.blkCntr) && Run(t, f, ins).p.waitWr == f.p.waitWr
    decreases |ins|
  {
    if ins != [] {
      var m := Run(t, f, ins[..|ins| - 1]);
      assert ins[|ins| - 1] in ins;
      RunKept(t, f, ins[..|ins| - 1]);
      if m.p.cs != P.Wait { StepKept(t, m, ins[|ins| - 1], f.p.blkCntr); }
    }
  }

  /**
   * For any ready pattern a block is handed over as a start beat, one four-byte beat for each word the counter counts,
   * one two-byte CRC slot and two silent beats; a written block's words are those taken from the FIFO, in order, and
   * its last beats read the card's answer. The block is counted once. The lanes are left for one, or for the whole bus
   * if a beat of the answer was taken.
   */
  lemma BlockIsFramed(t: Tables, f: Frame, ins: seq<P.Ins>)
    requires Begun(t, f) && forall i :: i in ins ==> Undisturbed(f.p.waitWr, i)
    requires Run(t, f, ins).p.cs == P.Wait
    ensures var z := Run(t, f, ins);
            && |z.words| == BlockBeats(t) && z.pops == (if f.p.waitWr then z.words else [])
            && Handed(t, z) && z.p.waitWr == f.p.waitWr && z.p.blkCntr == f.p.blkCntr + 1
            && z.p.ioWidth == (if |z.handed| > |z.words| + 4 then t.ioWidth else 0)
  {
    RunKept(t, f, ins);
  }

  /** The beats of a block that read the data lines, with their lengths and CRC marks. */
  function Reads(hs: seq<Hand>): seq<P.AskBeat> {
    if hs == [] then []
    else
      var h := hs[|hs| - 1];
      Reads(hs[..|hs| - 1]) + (if h.drives || h.silent then [] else [P.Ask(h.bytes, h.crc)])
  }

  lemma OneMoreRead(hs: seq<Hand>, h: Hand)
    ensures Reads(hs + [h]) == Reads(hs) + (if h.drives || h.silent then [] else [P.Ask(h.bytes, h.crc)])
  {
    assert (hs + [h])[..|hs|] == hs;
  }

  lemma {:induction false} BodyReads(t: Tables, words: seq<Word>)
    ensures Reads(Body(t, false, words)) == seq(|words|, k => P.Ask(4, false))
  {
    if words == [] {
      assert Body(t, false, words) == [] + [Hand(false, true, 0, 1, false, t.ioWidth, Opening(t, false))];
      OneMoreRead([], Hand(false, true, 0, 1, false, t.ioWidth, Opening(t, false)));
    } else {
      var n := |words| - 1;
      BodyReads(t, words[..n]);
      OneMoreWord(t, false, words);
      OneMoreRead(Body(t, false, words[..n]), Hand(false, false, 0, 4, false, t.ioWidth, words[n]));
    }
  }

  /** A read block's closing beats read its CRC slot and nothing else. */
  lemma ClosingReads(t: Tables, body: seq<Hand>)
    ensures Reads(body + Closing(t, false)) == Reads(body) + [P.Ask(2, true)]
  {
    var c := Closing(t, false);
    OneMoreRead(body, c[0]);
    OneMoreRead(body + [c[0]], c[1]);
    OneMoreRead(body + [c[0]] + [c[1]], c[2]);
    assert body + c == body + [c[0]] + [c[1]] + [c[2]];
  }

  /** A read block asks for one four-byte beat for each word it counts and then one two-byte CRC slot, and no more. */
  lemma ReadBlockAsks(t: Tables, f: Frame, ins: seq<P.Ins>)
    requires Begun(t, f) && f.p.waitRd && forall i :: i in ins ==> Undisturbed(false, i)
    requires Run(t, f, ins).p.cs == P.Wait
    ensures Reads(Run(t, f, ins).handed) == seq(BlockBeats(t), k => P.Ask(4, false)) + [P.Ask(2, true)]
  {
    BlockIsFramed(t, f, ins);
    var z := Run(t, f, ins);
    var b := Body(t, false, z.words);
    BodyReads(t, z.words);
    ClosingReads(t, b);
    assert z.handed == b + Closing(t, false);
  }

  /** A block that the idle state begins is begun in that sense, if for a write the bus width has been taken over. */
  lemma BlockBegins(t: Tables, p: P.Regs, i: P.Ins)
    requires p.cs == P.Idle && P.Begins(p, i) && p.waitWr != p.waitRd && Undisturbed(p.waitWr, i)
    requires p.waitWr ==> p.ioWidth == t.ioWidth
    ensures Begun(t, Frame(P.Next(t, p, i), [], [], []))
  {
  }

  /** The first block of a command finds it taken over: the wait flag comes up in the idle state. */
  lemma FirstBlockBegins(t: Tables, p: P.Regs, i: P.Ins, i': P.Ins)
    requires p.cs == P.Idle && !p.waitWr && !p.waitRd && !(i.readCmd && i.writeCmd)
    requires var p1 := P.Next(t, p, i); P.Begins(p1, i') && Undisturbed(p1.waitWr, i')
    ensures Begun(t, Frame(P.Next(t, P.Next(t, p, i), i'), [], [], []))
  {
    BlockBegins(t, P.Next(t, p, i), i');
  }

  /** Data lines a width code stands for. */
  function Lanes(ioWidth: nat): nat { if ioWidth == 3 then 8 else if ioWidth == 2 then 4 else 1 }

  /** The start token pulls down exactly the top bits of its first byte, one for each line in use. */
  lemma StartBitOnEveryLane(ioWidth: nat)
    ensures P.StartToken(ioWidth) as nat == (ALL_ONES as nat - 0xFF) + (Pow2(8 - Lanes(ioWidth)) - 1)
  {
    assert Pow2(4) == 16 && Pow2(7) == 8 * Pow2(4) && Pow2(0) == 1;
  }
}
