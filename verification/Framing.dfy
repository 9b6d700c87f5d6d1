/** How many words one block of a write really takes, for any counter preset and any ready pattern. */
module Framing {
  import opened Words
  import opened Geometry
  import P = Payload

  /** Data handshakes still to come when the counter shows n and the last-word flag is down. */
  function BeatsLeft(n: nat): nat { if n < 8 then 2 else 1 + BeatsLeft(n - 4) }

  /** The words of one block, as the counter counts them. */
  function BlockBeats(t: Tables): nat { BeatsLeft(P.Minus4(t, t.wdtInit)) }

  /** One block in progress: the registers, the FIFO pops made and the data words handed over. */
  datatype Block = Block(p: P.Regs, pops: nat, sends: nat)

  function Step(t: Tables, b: Block, i: P.Ins): Block {
    Block(P.Next(t, b.p, i),
          b.pops + (if P.MemRden(b.p, i) then 1 else 0),
          b.sends + (if P.Transmits(b.p, i) then 1 else 0))
  }

  /** Clocks are taken until the block reaches its CRC slot. */
  function Run(t: Tables, b: Block, ins: seq<P.Ins>): Block
    decreases |ins|
  {
    if ins == [] then b
    else
      var m := Run(t, b, ins[..|ins| - 1]);
      if m.p.cs == P.Crc then m else Step(t, m, ins[|ins| - 1])
  }

  predicate Begun(t: Tables, b: Block) {
    && b.p.cs == P.Start && b.p.valid && b.p.waitWr && !b.p.last && !b.p.wr1rd0
    && b.p.cntr == t.wdtInit && b.pops == 0 && b.sends == 0
  }

  ghost predicate Inv(t: Tables, b: Block, blk: nat) {
    && b.p.waitWr && b.p.valid
    && match b.p.cs
       case Start => Begun(t, b) && b.p.blkCntr == blk
       case Data =>
         && b.p.wr1rd0 && !b.p.dcEn && b.p.blkCntr == blk && b.pops == b.sends + 1
         && b.sends + (if b.p.last then 1 else BeatsLeft(b.p.cntr)) == BlockBeats(t)
       case Crc => b.pops == BlockBeats(t) && b.sends == BlockBeats(t) && b.p.blkCntr == blk + 1
       case _ => false
  }

  /** One block makes BlockBeats pops and BlockBeats data handshakes, then its CRC slot, counted once. */
  lemma {:induction false} BlockTakesBeats(t: Tables, b: Block, ins: seq<P.Ins>)
    requires Begun(t, b) && forall i :: i in ins ==> !i.restart
    ensures Inv(t, Run(t, b, ins), b.p.blkCntr)
    decreases |ins|
  {
    if ins != [] {
      assert ins[|ins| - 1] in ins;
      BlockTakesBeats(t, b, ins[..|ins| - 1]);
    }
  }

  lemma {:induction false} BeatsOfWords(m: nat)
    requires 1 <= m
    ensures BeatsLeft(4 * m) == m + 1
  {
    if m >= 2 { BeatsOfWords(m - 1); }
  }

  /**
   * A block takes as many words as its length says exactly when that length is within MIN_BLOCK_SIZE;
   * beyond it the preset is zero and the counter wraps, so the block takes half of MAX_BLOCK_SIZE in words.
   */
  lemma BlockBeatsIffWithinMinimum(c: Csr)
    requires Offered(c)
    ensures BlockBeats(Decode(c)) == (if Pow2(c.blockLen) <= c.minBlock then BlockWords(c) else c.maxBlock / 2)
    ensures BlockBeats(Decode(c)) == BlockWords(c) <==> Pow2(c.blockLen) <= c.minBlock
  {
    PayloadTable(c);
    CounterRange(c);
    SmallPowers();
    if Pow2(c.blockLen) <= c.minBlock {
      BeatsOfWords(BlockWords(c) - 1);
    } else {
      assert c.maxBlock % 2 == 0;
      BeatsOfWords(c.maxBlock / 2 - 1);
    }
  }

  /** The build the catalogue offers by default fetches 256 words for a 1 KB block and sends 512. */
  lemma DefaultBuildOverruns(c: Csr)
    requires c.blockLen == 10 && c.minBlock == 512 && c.maxBlock == 1024 && c.depth >= 512
    ensures Offered(c) && BurstLen(c) == 256 && BlockBeats(Decode(c)) == 512
  {
    SmallPowers();
    BlockBeatsIffWithinMinimum(c);
  }
}
