/** The transfer registers and the tables both machines derive a block's length from. */
module Geometry {
  import opened Words

  /** The CSR values a data command runs under, with the IP's build parameters. */
  datatype Csr = Csr(
    blockLen: nat, numBlocks: nat, srcDst: nat, ioWidth: nat,
    minBlock: nat, maxBlock: nat, depth: nat)

  const AXI_WORDS := 0x4000_0000   // 2^30 word addresses

  /** block_size[15:2] */
  function BlockWords(c: Csr): nat { Pow2(c.blockLen) / 4 }

  /** csr_src_dst_addr with its two low bits dropped, as a word address */
  function BaseAddr(c: Csr): nat { c.srcDst / 4 % AXI_WORDS }

  /** Word k of a transfer lies 4k bytes above SRC_DST's word, around the end of the address space. */
  lemma BaseIsAddress(c: Csr, k: nat)
    requires c.srcDst < 4 * AXI_WORDS
    ensures 4 * ((BaseAddr(c) + k) % AXI_WORDS) == (c.srcDst - c.srcDst % 4 + 4 * k) % (4 * AXI_WORDS)
  {
    var n := BaseAddr(c) + k;
    assert 4 * n == c.srcDst - c.srcDst % 4 + 4 * k;
    assert 4 * n == 4 * AXI_WORDS * (n / AXI_WORDS) + 4 * (n % AXI_WORDS);
  }

  /** 2^$clog2(n) */
  function CeilPow2(n: nat): (p: nat)
    ensures n <= p && 0 < p
  {
    if n <= 1 then 1 else 2 * CeilPow2((n + 1) / 2)
  }

  /** wdt_cntr counts modulo this. */
  function CntrMod(c: Csr): nat { CeilPow2(c.maxBlock + 1) }

  /** wdt_cntr_init[0+:WDTCNTWID]: one bit per block length, each guarded by the parameter. */
  function WdtInit(c: Csr): nat {
    var selected := if c.blockLen == 0 then c.minBlock == 1 else c.minBlock >= Pow2(c.blockLen);
    if selected then Pow2(c.blockLen) % CntrMod(c) else 0
  }

  /** axlen_p1_d: the beats of one bus burst. */
  function BurstLen(c: Csr): nat {
    if c.blockLen == 9 && c.minBlock >= 512 then 128
    else if c.blockLen == 8 && c.minBlock >= 256 then 64
    else if c.blockLen == 7 && c.minBlock >= 128 then 32
    else if c.blockLen == 6 && c.minBlock >= 64 then 16
    else if c.blockLen == 5 && c.minBlock >= 32 then 8
    else if c.blockLen == 4 && c.minBlock >= 16 then 4
    else if c.blockLen == 3 && c.minBlock >= 8 then 2
    else if c.blockLen == 2 && c.minBlock >= 4 then 1
    else 256
  }

  /** Builds and block lengths the design offers, before asking whether they work. */
  predicate Offered(c: Csr) {
    && 3 <= c.blockLen <= 10
    && Pow2(c.blockLen) <= c.maxBlock
    && (exists m: nat :: m <= 10 && c.maxBlock == Pow2(m))
    && c.minBlock <= c.maxBlock
    && c.maxBlock / 2 <= c.depth
  }

  /** The numbers the two machines run on, decoded from the registers. */
  datatype Tables = Tables(
    words: nat, wdtInit: nat, burstLen: nat, cntrMod: nat, base: nat, numBlocks: nat, depth: nat, ioWidth: nat)

  function Decode(c: Csr): Tables {
    Tables(BlockWords(c), WdtInit(c), BurstLen(c), CntrMod(c), BaseAddr(c), c.numBlocks, c.depth, c.ioWidth)
  }

  /** Both machines count the same block, and the FIFO holds two of them. */
  predicate Sound(t: Tables) {
    && 2 <= t.words <= 256 && t.wdtInit == 4 * t.words && t.burstLen == t.words
    && 8 * t.words <= t.cntrMod && 2 * t.words <= t.depth && t.base < AXI_WORDS && 1 <= t.numBlocks
  }

  lemma SmallPowers()
    ensures Pow2(0) == 1 && Pow2(1) == 2 && Pow2(2) == 4 && Pow2(3) == 8 && Pow2(4) == 16
    ensures Pow2(5) == 32 && Pow2(6) == 64 && Pow2(7) == 128 && Pow2(8) == 256
    ensures Pow2(9) == 512 && Pow2(10) == 1024
  {
    assert Pow2(4) == 16;
    assert Pow2(8) == 256;
  }

  /** WDTCNTWID leaves one spare bit above the largest block. */
  lemma CounterRange(c: Csr)
    requires Offered(c)
    ensures CntrMod(c) == 2 * c.maxBlock
  {
    SmallPowers();
    var m: nat :| m <= 10 && c.maxBlock == Pow2(m);
    CeilPow2Step(m);
  }

  lemma {:induction false} CeilPow2Step(m: nat)
    ensures CeilPow2(Pow2(m) + 1) == 2 * Pow2(m)
  {
    if m == 0 {
      assert CeilPow2(2) == 2 * CeilPow2(1);
    } else {
      CeilPow2Step(m - 1);
      assert (Pow2(m) + 2) / 2 == Pow2(m - 1) + 1;
    }
  }

  lemma QuarterExact(k: nat)
    requires 2 <= k
    ensures 4 * (Pow2(k) / 4) == Pow2(k)
  {
    assert Pow2(k - 1) == 2 * Pow2(k - 2);
    assert Pow2(k) == 2 * Pow2(k - 1);
    Quarter(Pow2(k), Pow2(k - 2));
  }

  lemma Quarter(n: nat, p: nat)
    requires n == 4 * p
    ensures 4 * (n / 4) == n
  {
  }

  lemma BelowModulus(n: nat, m: nat)
    requires n < m
    ensures n % m == n
  {
  }

  /** The payload table selects a length exactly when it is within MIN_BLOCK_SIZE, and nothing otherwise. */
  lemma PayloadTable(c: Csr)
    requires Offered(c)
    ensures 4 * BlockWords(c) == Pow2(c.blockLen)
    ensures WdtInit(c) == if Pow2(c.blockLen) <= c.minBlock then 4 * BlockWords(c) else 0
  {
    CounterRange(c);
    QuarterExact(c.blockLen);
    BelowModulus(Pow2(c.blockLen), CntrMod(c));
  }

  lemma BurstTable(c: Csr)
    requires Offered(c) && Pow2(c.blockLen) <= c.minBlock
    ensures BurstLen(c) == BlockWords(c) && 2 <= BlockWords(c) <= 256
  {
    SmallPowers();
  }

  /** The machines agree on the block exactly when the selected length is within MIN_BLOCK_SIZE. */
  lemma SoundIffWithinMinimum(c: Csr)
    requires Offered(c) && 1 <= c.numBlocks
    ensures Sound(Decode(c)) <==> Pow2(c.blockLen) <= c.minBlock
  {
    PayloadTable(c);
    CounterRange(c);
    if Pow2(c.blockLen) <= c.minBlock {
      BurstTable(c);
    }
  }
}
