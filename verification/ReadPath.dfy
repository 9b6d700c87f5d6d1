/** Card to memory: the joint invariant of both machines during a read command, and what it gives. */
module ReadPath {
  import opened Words
  import opened Geometry
  import opened Transfer
  import P = Payload
  import X = AxiManager

  ghost predicate ReadJob(j: Job) { Sound(j.t) && !j.isWrite }

  /** The SERDES answers the beats it was asked for, in order: a word for a data beat, the end mark for a CRC slot. */
  predicate Answers(l: Line, i: P.Ins) {
    i.rxValid ==> 0 < l.owed <= |l.asked| && i.rxEnd == l.asked[|l.asked| - l.owed].crc
  }

  /**
   * What the surroundings promise: no abort, one response phase per command, and a SERDES that answers what it is
   * asked for and no more, with the data clock running until it has.
   */
  predicate Legal(l: Line, i: P.Ins) {
    && !i.restart && !i.writeCmd && (i.cmdRsp ==> l.p.waitRd || !l.started)
    && (l.p.waitRd ==> Answers(l, i))
    && (l.p.waitRd && l.p.cs == P.Wait && !i.clkVld ==> l.owed == 0)
  }

  /** No word of the next block is in the FIFO when a burst's last beat is taken. */
  predicate Drained(b: Bus, i: X.Ins) { X.WriteDone(b.x, i) ==> b.x.fifo == [] }

  // ---------------------------------------------------------------- what should be on the bus

  function CardWords(j: Job, lo: nat, hi: nat): (ws: seq<Word>)
    requires lo <= hi
    ensures |ws| == hi - lo
    ensures forall k :: 0 <= k < hi - lo ==> ws[k] == j.card(lo + k)
  {
    seq(hi - lo, (k: nat) requires k < hi - lo => j.card(lo + k))
  }

  /** The first n beats of burst k: the block's words in arrival order, WLAST on the L-th only. */
  function BurstBeats(j: Job, k: nat, n: nat): (bs: seq<X.Beat>)
    ensures |bs| == n
    ensures forall i :: 0 <= i < n ==> bs[i] == X.Beat(i + 1 == j.t.words, j.card(First(j, k) + i))
  {
    seq(n, (i: nat) requires i < n => X.Beat(i + 1 == j.t.words, j.card(First(j, k) + i)))
  }

  function Bursts(j: Job, n: nat): seq<X.Beat> {
    if n == 0 then [] else Bursts(j, n - 1) + BurstBeats(j, n - 1, j.t.words)
  }

  // ---------------------------------------------------------------- the invariant, part by part

  /** Words, as opposed to the end mark, that the SERDES still owes. */
  function WordsOwed(owed: nat): nat { if owed > 0 then owed - 1 else 0 }

  /** The FIFO holds the words received and not yet queued, with room for what is owed. */
  ghost predicate FifoInv(j: Job, b: Bus, received: nat, owed: nat) {
    && b.popped + Pending(b) <= received
    && b.x.fifo == CardWords(j, b.popped, received - Pending(b))
    && (b.x.fifoWren ==> b.x.fifoWdata == j.card(received - 1))
    && b.x.fifoCntr == |b.x.fifo|
    && |b.x.fifo| + Pending(b) + WordsOwed(owed) <= 2 * j.t.words
    && (owed == 0 ==> !b.x.fifoWren)
  }

  /** Words of the burst in progress that have left the FIFO. */
  function Moved(j: Job, b: Bus, k: nat): int { b.popped - First(j, k) }

  /** wcntr counts the words still to be queued after this one, and wlast_r is its zero test. */
  ghost predicate CountInv(j: Job, b: Bus, k: nat) {
    var m := Moved(j, b, k);
    && 0 <= m <= j.t.words
    && b.x.wcntr == (if m < j.t.words then j.t.words - 1 - m else 0)
    && b.x.wlast == (b.x.wcntr == 0)
    && (b.x.queue == [] || (m > 0 && b.x.queue == [X.Beat(m == j.t.words, j.card(b.popped - 1))]))
  }

  ghost predicate BusInv(j: Job, b: Bus) {
    var L, N, k := j.t.words, j.t.numBlocks, b.x.blkCntr;
    && b.x.axlenP1 == L && b.x.axlen == L - 1 && b.fetched == 0 && b.rdLeft == 0
    && match b.x.cs
       case Idle => b.popped == 0 && b.reqs == [] && b.beats == [] && b.x.queue == []
       case Wait =>
         && k <= N && b.popped == First(j, k) && b.reqs == Requests(j, k) && b.beats == Bursts(j, k)
         && b.x.queue == [] && b.x.addr == Addr(j, First(j, k))
         && (b.x.gteqAxlen ==> b.x.wcntr == L - 1)
         && (if b.x.allDone then k == N || k == 0 else k < N)
       case Write =>
         && k < N && b.reqs == Requests(j, k) && b.beats == Bursts(j, k)
         && b.x.addr == Addr(j, First(j, k)) && CountInv(j, b, k) && Moved(j, b, k) == |b.x.queue|
       case Done =>
         && 1 <= k <= N && b.reqs == Requests(j, k) && b.x.addr == Addr(j, First(j, k - 1))
         && CountInv(j, b, k - 1) && (Moved(j, b, k - 1) == L ==> b.x.queue != [])
         && b.beats == Bursts(j, k - 1) + BurstBeats(j, k - 1, Moved(j, b, k - 1) - |b.x.queue|)
       case Read => false
  }

  /** The bus has just left idle with the previous command's all_blocks_done still showing. */
  predicate StaleDone(b: Bus) {
    b.x.cs == X.Wait && b.x.allDone && b.x.blkCntr == 0
  }

  /** Blocks whose words have been asked of the SERDES, or are being asked. */
  function Asked(l: Line): nat { if l.p.cs == P.Data then l.p.blkCntr + 1 else l.p.blkCntr }

  /** Data beats of the block in progress still to be handed over. */
  function DataToAsk(l: Line): nat {
    if l.p.cs != P.Data then 0 else if l.p.last then 1 else l.p.cntr / 4 + 1
  }

  /** What the SERDES will still answer for this block: what it owes, and what it is yet to be asked. */
  function Due(l: Line): nat {
    l.owed + DataToAsk(l) + (if l.p.cs == P.Data || l.p.cs == P.Crc then 1 else 0)
  }

  const WORD := P.Ask(4, false)
  const SLOT := P.Ask(2, true)

  /** n data beats. */
  function DataAsks(n: nat): (a: seq<P.AskBeat>)
    ensures |a| == n && forall k :: 0 <= k < n ==> a[k] == WORD
  {
    seq(n, k => WORD)
  }

  /** n blocks as asked of the SERDES: a four-byte beat for each word, then one two-byte CRC slot. */
  function AskFrames(j: Job, n: nat): seq<P.AskBeat> {
    if n == 0 then [] else AskFrames(j, n - 1) + DataAsks(j.t.words) + [SLOT]
  }

  /** How far the record of what was asked has got, and which beat the registers hand over next. */
  ghost predicate AskInv(j: Job, l: Line) {
    var L, b := j.t.words, l.p.blkCntr;
    match l.p.cs
    case Idle => l.asked == AskFrames(j, b) && (l.p.valid ==> l.p.dcEn)
    case Start => l.asked == AskFrames(j, b) && l.p.valid && l.p.dcEn && !l.p.crcEn && l.p.cntr == 4 * L
    case Data =>
      && l.p.valid && !l.p.dcEn && !l.p.crcEn && l.p.lastByte == 3
      && (l.p.last || (4 <= l.p.cntr <= 4 * L - 4 && l.p.cntr % 4 == 0))
      && DataToAsk(l) <= L && l.asked == AskFrames(j, b) + DataAsks(L - DataToAsk(l))
    case Crc =>
      && l.p.valid && !l.p.dcEn && l.p.crcEn && l.p.lastByte == 1 && 1 <= b && l.asked + [SLOT] == AskFrames(j, b)
    case Dummy => l.asked == AskFrames(j, b) && l.p.valid && l.p.dcEn
    case Wait => l.asked == AskFrames(j, b) && !l.p.valid
    case Rsp => false
  }

  /** Whether the block counted last has its end mark still to come. */
  predicate MarkDue(l: Line) { l.p.cs != P.Idle && l.p.cs != P.Start && l.p.cs != P.Data && Due(l) > 0 }

  /** Every beat handed over is answered, or still owed, and none of an earlier block is. */
  ghost predicate MarkInv(j: Job, l: Line) {
    && l.marks + (if MarkDue(l) then 1 else 0) == l.p.blkCntr
    && |l.asked| == l.owed + l.received + l.marks
    && l.owed + DataToAsk(l) <= j.t.words + (if l.p.cs == P.Data || l.p.cs == P.Crc then 0 else 1)
  }

  ghost predicate LineInv(j: Job, l: Line, shown: nat, memFree: bool) {
    var L, N, b := j.t.words, j.t.numBlocks, l.p.blkCntr;
    && l.started && l.p.waitRd && !l.p.waitWr && b <= N && !l.p.wr1rd0 && l.tx == []
    && l.received + WordsOwed(Due(l)) == First(j, Asked(l)) && AskInv(j, l) && MarkInv(j, l)
    && (l.p.last ==> l.p.cs == P.Data)
    && match l.p.cs
       case Idle => b < N && Due(l) == 0 && (memFree ==> shown <= L)
       case Start => b < N && Due(l) == 0 && shown <= L
       case Data => b < N
       case Crc => 1 <= b
       case Rsp => false
       case _ => 1 <= b && l.p.allDone == (b == N)
  }

  ghost predicate Active(j: Job, s: Sys) {
    && FifoInv(j, s.bus, s.line.received, Due(s.line)) && BusInv(j, s.bus)
    && LineInv(j, s.line, |s.bus.x.fifo|, s.bus.x.memFree)
    && (s.bus.x.cs == X.Idle ==> s.line.p.cs == P.Idle && s.line.received == 0)
    && (StaleDone(s.bus) ==> s.line.p.cs == P.Idle || s.line.p.cs == P.Start)
  }

  // ---------------------------------------------------------------- each part is kept

  ghost predicate Draining(j: Job, b: Bus, i: X.Ins, received: nat) {
    && i.memRd && !i.memWr && !i.rvalid && !i.procRden && Drained(b, i)
    && (i.procWren ==> i.procWdat == j.card(received))
  }

  /** How the SERDES's debt may move in one clock. */
  predicate Owes(j: Job, owed: nat, owed': nat, word: bool, shown: nat) {
    if word then owed > 1 && owed' == owed - 1
    else owed' == owed || (owed == 1 && owed' == 0) || (owed == 0 && owed' == j.t.words + 1 && shown <= j.t.words)
  }

  /** What a clock does to the FIFO: the queue takes its head, the pending word enters, a new one is pending. */
  predicate Flows(b: Bus, b': Bus, took: bool, came: bool, word: Word) {
    && (took ==> b.x.fifo != [])
    && b'.popped == b.popped + (if took then 1 else 0)
    && b'.x.fifo == (if took then b.x.fifo[1..] else b.x.fifo) + (if b.x.fifoWren then [b.x.fifoWdata] else [])
    && b'.x.fifoCntr == b.x.fifoCntr + (if b.x.fifoWren then 1 else 0) - (if took then 1 else 0)
    && b'.x.fifoWren == came && (came ==> b'.x.fifoWdata == word)
  }

  lemma FifoFlows(j: Job, b: Bus, i: X.Ins, received: nat, owed: nat)
    requires ReadJob(j) && FifoInv(j, b, received, owed) && Draining(j, b, i, received)
    requires i.procWren ==> owed > 1
    ensures Flows(b, BusNext(j, b, i), X.QueueWren(b.x, i), i.procWren, i.procWdat)
  {
  }

  /** The FIFO's invariant after such a clock. */
  lemma FifoParts(j: Job, b: Bus, b': Bus, took: bool, came: bool, word: Word, received: nat, owed: nat, owed': nat)
    requires FifoInv(j, b, received, owed) && Flows(b, b', took, came, word)
    requires came ==> word == j.card(received)
    requires Owes(j, owed, owed', came, |b.x.fifo|)
    ensures FifoInv(j, b', received + (if came then 1 else 0), owed')
  {
  }

  lemma FifoKept(j: Job, b: Bus, i: X.Ins, received: nat, owed: nat, owed': nat)
    requires ReadJob(j) && FifoInv(j, b, received, owed) && Draining(j, b, i, received)
    requires Owes(j, owed, owed', i.procWren, |b.x.fifo|)
    ensures FifoInv(j, BusNext(j, b, i), received + (if i.procWren then 1 else 0), owed')
  {
    FifoFlows(j, b, i, received, owed);
    FifoParts(j, b, BusNext(j, b, i), X.QueueWren(b.x, i), i.procWren, i.procWdat, received, owed, owed');
  }

  lemma WaitKept(j: Job, b: Bus, i: X.Ins, received: nat, owed: nat)
    requires ReadJob(j) && FifoInv(j, b, received, owed) && BusInv(j, b) && Draining(j, b, i, received)
    requires b.x.cs == X.Wait || (b.x.cs == X.Idle && b.x.fifo == [])
    ensures BusInv(j, BusNext(j, b, i))
  {
  }

  lemma WriteKept(j: Job, b: Bus, i: X.Ins, received: nat, owed: nat)
    requires ReadJob(j) && FifoInv(j, b, received, owed) && BusInv(j, b) && Draining(j, b, i, received)
    requires b.x.cs == X.Write
    ensures BusInv(j, BusNext(j, b, i))
  {
    var k := b.x.blkCntr;
    assert X.QueueWren(b.x, i) ==> b.x.fifo[0] == j.card(First(j, k));
    assert CountInv(j, BusNext(j, b, i), k);
  }

  lemma CountKept(j: Job, b: Bus, i: X.Ins, received: nat, owed: nat)
    requires ReadJob(j) && FifoInv(j, b, received, owed) && BusInv(j, b) && Draining(j, b, i, received)
    requires b.x.cs == X.Done && !X.WriteDone(b.x, i)
    ensures CountInv(j, BusNext(j, b, i), b.x.blkCntr - 1)
  {
    assert X.QueueWren(b.x, i) ==> b.x.fifo[0] == j.card(b.popped);
  }

  lemma BeatsKept(j: Job, b: Bus, i: X.Ins, received: nat, owed: nat)
    requires ReadJob(j) && FifoInv(j, b, received, owed) && BusInv(j, b) && Draining(j, b, i, received)
    requires b.x.cs == X.Done && X.WriteBeat(b.x, i)
    ensures var k := b.x.blkCntr - 1;
            BusNext(j, b, i).beats == Bursts(j, k) + BurstBeats(j, k, Moved(j, b, k))
  {
    var k := b.x.blkCntr - 1;
    var n := Moved(j, b, k) - 1;
    assert BurstBeats(j, k, n) + [b.x.queue[0]] == BurstBeats(j, k, n + 1);
  }

  /** What a clock inside a burst leaves as it was. */
  predicate SameBurst(b: Bus, b': Bus) {
    && b'.x.cs == X.Done && b'.x.axlenP1 == b.x.axlenP1 && b'.x.axlen == (b.x.axlenP1 + 255) % 256
    && b'.fetched == b.fetched && b'.rdLeft == b.rdLeft && b'.x.blkCntr == b.x.blkCntr
    && b'.reqs == b.reqs && b'.x.addr == b.x.addr
  }

  lemma BurstGoesOn(j: Job, b: Bus, i: X.Ins)
    requires b.x.cs == X.Done && i.memRd && !i.memWr && !i.rvalid && !X.WriteDone(b.x, i) && b.rdLeft == 0
    ensures SameBurst(b, BusNext(j, b, i))
    ensures !X.WriteBeat(b.x, i) ==> BusNext(j, b, i).beats == b.beats
    ensures BusNext(j, b, i).popped == b.popped + (if X.QueueWren(b.x, i) then 1 else 0)
    ensures |BusNext(j, b, i).x.queue| ==
            (if X.WriteBeat(b.x, i) then 0 else |b.x.queue|) + (if X.QueueWren(b.x, i) then 1 else 0)
  {
  }

  /** The parts of the invariant inside a burst, put together. */
  lemma BurstParts(j: Job, b: Bus, b': Bus)
    requires BusInv(j, b) && b.x.cs == X.Done && SameBurst(b, b') && 2 <= j.t.words <= 256
    requires CountInv(j, b', b.x.blkCntr - 1)
    requires var k := b.x.blkCntr - 1;
             b'.beats == Bursts(j, k) + BurstBeats(j, k, Moved(j, b', k) - |b'.x.queue|)
    requires Moved(j, b', b.x.blkCntr - 1) == j.t.words ==> b'.x.queue != []
    ensures BusInv(j, b')
  {
  }

  lemma DoneKept(j: Job, b: Bus, i: X.Ins, received: nat, owed: nat)
    requires ReadJob(j) && FifoInv(j, b, received, owed) && BusInv(j, b) && Draining(j, b, i, received)
    requires b.x.cs == X.Done && !X.WriteDone(b.x, i)
    ensures BusInv(j, BusNext(j, b, i))
  {
    CountKept(j, b, i, received, owed);
    BurstGoesOn(j, b, i);
    if X.WriteBeat(b.x, i) { BeatsKept(j, b, i, received, owed); }
    BurstParts(j, b, BusNext(j, b, i));
  }

  /** What the clock that takes a burst's last beat leaves, the FIFO being empty. */
  predicate BurstOver(j: Job, b: Bus, b': Bus) {
    && b'.x.cs == X.Wait && b'.x.axlenP1 == b.x.axlenP1 && b'.x.axlen == (b.x.axlenP1 + 255) % 256
    && b'.fetched == b.fetched && b'.rdLeft == b.rdLeft && b'.x.blkCntr == b.x.blkCntr && b'.reqs == b.reqs
    && b'.x.addr == (b.x.addr + b.x.axlenP1) % AXI_WORDS && b'.popped == b.popped && b'.x.queue == []
    && b'.beats == b.beats + b.x.queue && !b'.x.gteqAxlen && b'.x.allDone == (b.x.blkCntr == j.t.numBlocks)
  }

  lemma BurstLeaves(j: Job, b: Bus, i: X.Ins)
    requires ReadJob(j) && i.memRd && !i.memWr && !i.rvalid && !i.procRden && b.rdLeft == 0
    requires b.x.cs == X.Done && X.WriteDone(b.x, i) && b.x.fifo == [] && b.x.fifoCntr == 0 && b.x.axlen > 0
    requires |b.x.queue| == 1
    ensures BurstOver(j, b, BusNext(j, b, i))
  {
  }

  /** All of its beats are out. */
  lemma LastBeatOut(j: Job, b: Bus)
    requires ReadJob(j) && BusInv(j, b) && b.x.cs == X.Done && b.x.queue != [] && b.x.queue[0].last
    ensures b.beats + b.x.queue == Bursts(j, b.x.blkCntr) && b.popped == First(j, b.x.blkCntr) && |b.x.queue| == 1
  {
    var k := b.x.blkCntr - 1;
    assert BurstBeats(j, k, j.t.words - 1) + b.x.queue == BurstBeats(j, k, j.t.words);
  }

  lemma BurstEnds(j: Job, b: Bus, i: X.Ins, received: nat, owed: nat)
    requires ReadJob(j) && FifoInv(j, b, received, owed) && BusInv(j, b) && Draining(j, b, i, received)
    requires b.x.cs == X.Done && X.WriteDone(b.x, i)
    ensures BusInv(j, BusNext(j, b, i))
  {
    LastBeatOut(j, b);
    BurstLeaves(j, b, i);
    AddrAdd(j, First(j, b.x.blkCntr - 1), j.t.words);
  }

  lemma BusKept(j: Job, b: Bus, i: X.Ins, received: nat, owed: nat)
    requires ReadJob(j) && FifoInv(j, b, received, owed) && BusInv(j, b) && Draining(j, b, i, received)
    requires b.x.cs == X.Idle ==> b.x.fifo == []
    ensures BusInv(j, BusNext(j, b, i))
  {
    match b.x.cs
    case Write => WriteKept(j, b, i, received, owed);
    case Done =>
      if X.WriteDone(b.x, i) { BurstEnds(j, b, i, received, owed); } else { DoneKept(j, b, i, received, owed); }
    case _ => WaitKept(j, b, i, received, owed);
  }

  lemma {:induction false} AskFramesLength(j: Job, n: nat)
    ensures |AskFrames(j, n)| == First(j, n) + n
  {
    if n > 0 { AskFramesLength(j, n - 1); }
  }

  /** In a block, the oldest beat not answered is the CRC slot exactly when nothing else is due. */
  lemma OldestAsk(j: Job, l: Line, shown: nat, memFree: bool)
    requires ReadJob(j) && LineInv(j, l, shown, memFree) && l.owed > 0
    ensures l.owed <= |l.asked| && (l.asked[|l.asked| - l.owed].crc <==> Due(l) == 1)
  {
    var b, n := l.p.blkCntr, |l.asked| - l.owed;
    AskFramesLength(j, b);
    if l.p.cs == P.Data {
      assert l.asked[n] == DataAsks(j.t.words - DataToAsk(l))[n - |AskFrames(j, b)|];
    } else {
      AskFramesLength(j, b - 1);
      var whole := AskFrames(j, b - 1) + DataAsks(j.t.words) + [SLOT];
      assert l.asked[n] == whole[n];
    }
  }

  /** The line side's part of the invariant after one clock, and how the debt has moved. */
  ghost predicate LineStays(j: Job, l: Line, i: P.Ins, shown: nat, shown': nat) {
    var l' := LineNext(j, l, i);
    && LineInv(j, l', shown', shown <= j.t.words) && Owes(j, Due(l), Due(l'), P.MemWren(l.p, i), shown)
    && l'.received == l.received + (if P.MemWren(l.p, i) then 1 else 0)
  }

  /** What the SERDES is shown, and shows, in a legal clock. */
  ghost predicate Heard(j: Job, l: Line, i: P.Ins, shown: nat) {
    && LineInv(j, l, shown, i.memFree) && Legal(l, i) && LineNext(j, l, i).p.waitRd
    && (i.rxValid ==> l.owed > 0 && i.rxEnd == (Due(l) == 1))
  }

  lemma IdleStays(j: Job, l: Line, i: P.Ins, shown: nat, shown': nat)
    requires ReadJob(j) && Heard(j, l, i, shown) && (Due(l) == 0 ==> shown' <= shown)
    requires l.p.cs == P.Idle
    ensures LineStays(j, l, i, shown, shown')
  {
  }

  lemma StartStays(j: Job, l: Line, i: P.Ins, shown: nat, shown': nat)
    requires ReadJob(j) && Heard(j, l, i, shown) && (Due(l) == 0 ==> shown' <= shown)
    requires l.p.cs == P.Start
    ensures LineStays(j, l, i, shown, shown')
  {
    assert AskFrames(j, l.p.blkCntr) + DataAsks(0) == AskFrames(j, l.p.blkCntr);
  }

  lemma OneMoreAsk(j: Job, a: seq<P.AskBeat>, n: nat)
    ensures a + DataAsks(n) + [WORD] == a + DataAsks(n + 1)
  {
  }

  lemma DataStays(j: Job, l: Line, i: P.Ins, shown: nat, shown': nat)
    requires ReadJob(j) && Heard(j, l, i, shown) && l.p.cs == P.Data && !(l.p.last && i.ready)
    ensures LineStays(j, l, i, shown, shown')
  {
    OneMoreAsk(j, AskFrames(j, l.p.blkCntr), j.t.words - DataToAsk(l));
  }

  lemma LastDataStays(j: Job, l: Line, i: P.Ins, shown: nat, shown': nat)
    requires ReadJob(j) && Heard(j, l, i, shown) && l.p.cs == P.Data && l.p.last && i.ready
    ensures LineStays(j, l, i, shown, shown')
  {
    OneMoreAsk(j, AskFrames(j, l.p.blkCntr), j.t.words - 1);
  }

  lemma CrcStays(j: Job, l: Line, i: P.Ins, shown: nat, shown': nat)
    requires ReadJob(j) && Heard(j, l, i, shown) && l.p.cs == P.Crc
    ensures LineStays(j, l, i, shown, shown')
  {
  }

  lemma TailStays(j: Job, l: Line, i: P.Ins, shown: nat, shown': nat)
    requires ReadJob(j) && Heard(j, l, i, shown) && (Due(l) == 0 ==> shown' <= shown)
    requires l.p.cs == P.Dummy || l.p.cs == P.Wait
    ensures LineStays(j, l, i, shown, shown')
  {
  }

  lemma LineKept(j: Job, l: Line, i: P.Ins, shown: nat, shown': nat)
    requires ReadJob(j) && LineInv(j, l, shown, i.memFree) && Legal(l, i)
    requires Due(l) == 0 ==> shown' <= shown
    requires LineNext(j, l, i).p.waitRd
    ensures LineStays(j, l, i, shown, shown')
  {
    if i.rxValid { OldestAsk(j, l, shown, i.memFree); }
    match l.p.cs
    case Idle => IdleStays(j, l, i, shown, shown');
    case Start => StartStays(j, l, i, shown, shown');
    case Data =>
      if l.p.last && i.ready { LastDataStays(j, l, i, shown, shown'); } else { DataStays(j, l, i, shown, shown'); }
    case Crc => CrcStays(j, l, i, shown, shown');
    case Dummy => TailStays(j, l, i, shown, shown');
    case Wait => TailStays(j, l, i, shown, shown');
  }

  // ---------------------------------------------------------------- end of the command

  ghost predicate LineOver(j: Job, l: Line) {
    && l.started && !l.p.waitWr && !l.p.waitRd && !l.p.wr1rd0 && !l.p.last && l.tx == []
    && (l.p.cs == P.Wait || l.p.cs == P.Idle)
    && l.received == First(j, j.t.numBlocks) && l.asked == AskFrames(j, j.t.numBlocks)
  }

  ghost predicate BusOver(j: Job, b: Bus) {
    var N := j.t.numBlocks;
    && b.popped == First(j, N) && b.reqs == Requests(j, N) && b.beats == Bursts(j, N)
    && b.x.fifo == [] && b.x.queue == [] && !b.x.fifoWren && b.x.fifoCntr == 0 && b.rdLeft == 0
    && (b.x.cs == X.Idle || (b.x.cs == X.Wait && b.x.allDone && b.x.blkCntr == N))
  }

  ghost predicate Finished(j: Job, s: Sys) { LineOver(j, s.line) && BusOver(j, s.bus) }

  /** CTRL0 has been stable for two clocks, so the burst length is already decoded. */
  predicate Settled(j: Job, b: Bus) { b.x.axlenP1 == j.t.words && b.x.axlen == j.t.words - 1 }

  ghost predicate Inv(j: Job, s: Sys) {
    if s.line.p.waitRd then Active(j, s)
    else if s.line.started then Finished(j, s)
    else Rest(s) && Settled(j, s.bus)
  }

  lemma FifoMiddle(j: Job, s: Sys, e: Env)
    requires ReadJob(j) && Active(j, s) && Legal(s.line, PIns(j, s, e)) && Drained(s.bus, XIns(j, s, e))
    requires LineNext(j, s.line, PIns(j, s, e)).p.waitRd
    ensures var s' := Step(j, s, e); FifoInv(j, s'.bus, s'.line.received, Due(s'.line))
  {
    LineKept(j, s.line, PIns(j, s, e), |s.bus.x.fifo|, 0);
    FifoKept(j, s.bus, XIns(j, s, e), s.line.received, Due(s.line), Due(LineNext(j, s.line, PIns(j, s, e))));
  }

  lemma LineMiddle(j: Job, s: Sys, e: Env)
    requires ReadJob(j) && Active(j, s) && Legal(s.line, PIns(j, s, e))
    requires LineNext(j, s.line, PIns(j, s, e)).p.waitRd
    ensures var s' := Step(j, s, e);
            LineInv(j, s'.line, |s'.bus.x.fifo|, s'.bus.x.memFree)
  {
    LineKept(j, s.line, PIns(j, s, e), |s.bus.x.fifo|, |BusNext(j, s.bus, XIns(j, s, e)).x.fifo|);
  }

  lemma MiddleStep(j: Job, s: Sys, e: Env)
    requires ReadJob(j) && Active(j, s) && Legal(s.line, PIns(j, s, e)) && Drained(s.bus, XIns(j, s, e))
    requires LineNext(j, s.line, PIns(j, s, e)).p.waitRd
    ensures Active(j, Step(j, s, e))
  {
    FifoMiddle(j, s, e);
    BusKept(j, s.bus, XIns(j, s, e), s.line.received, Due(s.line));
    LineMiddle(j, s, e);
  }

  /** emmc_req_done in the wait state means the last word is in memory. */
  lemma LastStep(j: Job, s: Sys, e: Env)
    requires ReadJob(j) && Active(j, s) && Legal(s.line, PIns(j, s, e))
    requires !LineNext(j, s.line, PIns(j, s, e)).p.waitRd
    ensures Finished(j, Step(j, s, e))
  {
    assert s.bus.x.blkCntr == j.t.numBlocks;
    FirstStrict(j, j.t.numBlocks, Asked(s.line));
    FirstStrict(j, Asked(s.line), j.t.numBlocks);
  }

  lemma FinishedStep(j: Job, s: Sys, e: Env)
    requires ReadJob(j) && Finished(j, s) && Legal(s.line, PIns(j, s, e))
    ensures Finished(j, Step(j, s, e))
  {
  }

  lemma RestStep(j: Job, s: Sys, e: Env)
    requires ReadJob(j) && Rest(s) && Settled(j, s.bus) && Legal(s.line, PIns(j, s, e))
    ensures Inv(j, Step(j, s, e))
  {
  }

  // ---------------------------------------------------------------- whole runs

  /** Every clock of the run keeps the promise, judged in the state it meets. */
  ghost predicate LegalRun(j: Job, s: Sys, es: seq<Env>)
    decreases |es|
  {
    es == [] ||
    (var m := Run(j, s, es[..|es| - 1]);
     LegalRun(j, s, es[..|es| - 1]) && Legal(m.line, PIns(j, m, es[|es| - 1])))
  }

  lemma LegalOneMore(j: Job, s: Sys, es: seq<Env>, e: Env)
    requires LegalRun(j, s, es) && Legal(Run(j, s, es).line, PIns(j, Run(j, s, es), e))
    ensures LegalRun(j, s, es + [e]) && Run(j, s, es + [e]) == Step(j, Run(j, s, es), e)
  {
    RunOneMore(j, s, es, e);
  }

  /** Whenever a burst's last beat is taken in the run, the FIFO is empty. */
  ghost predicate DrainedRun(j: Job, s: Sys, es: seq<Env>)
    decreases |es|
  {
    es == [] ||
    (var m := Run(j, s, es[..|es| - 1]);
     DrainedRun(j, s, es[..|es| - 1]) && Drained(m.bus, XIns(j, m, es[|es| - 1])))
  }

  lemma {:induction false} RunKeepsInv(j: Job, s: Sys, es: seq<Env>)
    requires ReadJob(j) && Rest(s) && Settled(j, s.bus) && LegalRun(j, s, es) && DrainedRun(j, s, es)
    ensures Inv(j, Run(j, s, es))
    decreases |es|
  {
    if es != [] {
      var last := |es| - 1;
      RunKeepsInv(j, s, es[..last]);
      var m := Run(j, s, es[..last]);
      if !m.line.p.waitRd && m.line.started {
        FinishedStep(j, m, es[last]);
      } else if !m.line.p.waitRd {
        RestStep(j, m, es[last]);
      } else if LineNext(j, m.line, PIns(j, m, es[last])).p.waitRd {
        MiddleStep(j, m, es[last]);
      } else {
        LastStep(j, m, es[last]);
      }
    }
  }

  /** Card to memory, end to end, while the FIFO drains between bursts. */
  lemma EndToEnd(j: Job, s: Sys, es: seq<Env>)
    requires ReadJob(j) && Rest(s) && Settled(j, s.bus) && LegalRun(j, s, es) && DrainedRun(j, s, es)
    requires Run(j, s, es).line.started && !Run(j, s, es).line.p.waitRd
    ensures Run(j, s, es).bus.reqs == Requests(j, j.t.numBlocks)
    ensures Run(j, s, es).bus.beats == Bursts(j, j.t.numBlocks)
    ensures Run(j, s, es).line.received == j.t.numBlocks * j.t.words
    ensures Run(j, s, es).line.asked == AskFrames(j, j.t.numBlocks)
  {
    RunKeepsInv(j, s, es);
    FirstIsProduct(j, j.t.numBlocks);
  }

  // ---------------------------------------------------------------- when the FIFO does not drain

  /**
   * A burst's last beat leaves the write queue empty exactly when the FIFO was empty; otherwise the
   * first word of the next block is queued at once, already marked as a last beat.
   */
  lemma LastBeatPrefetch(j: Job, b: Bus, i: X.Ins, received: nat, owed: nat)
    requires ReadJob(j) && FifoInv(j, b, received, owed) && BusInv(j, b)
    requires i.memRd && !i.memWr && X.WriteDone(b.x, i)
    ensures BusNext(j, b, i).x.queue ==
            if b.x.fifo == [] then [] else [X.Beat(true, j.card(First(j, b.x.blkCntr)))]
    ensures BusNext(j, b, i).beats == Bursts(j, b.x.blkCntr)
  {
    var k := b.x.blkCntr - 1;
    var n := Moved(j, b, k) - 1;
    assert BurstBeats(j, k, n) + [b.x.queue[0]] == BurstBeats(j, k, n + 1);
  }

  /** After k good bursts a beat that should open the next one is, or is about to be, marked as its last. */
  ghost predicate Spoiled(j: Job, b: Bus, k: nat) {
    || (b.beats == Bursts(j, k) && b.x.queue != [] && b.x.queue[0].last)
    || (First(j, k) < |b.beats| && b.beats[First(j, k)].last)
  }

  lemma {:induction false} BurstsLength(j: Job, k: nat)
    ensures |Bursts(j, k)| == First(j, k)
  {
    if k > 0 { BurstsLength(j, k - 1); }
  }

  /** Nothing the surroundings do mends it. */
  lemma SpoiledStays(j: Job, b: Bus, i: X.Ins, k: nat)
    requires Spoiled(j, b, k)
    ensures Spoiled(j, BusNext(j, b, i), k)
  {
    BurstsLength(j, k);
  }

  /** The first undrained burst spoils the next. */
  lemma UndrainedSpoils(j: Job, s: Sys, e: Env)
    requires ReadJob(j) && Inv(j, s) && !Drained(s.bus, XIns(j, s, e))
    ensures s.bus.x.blkCntr < j.t.numBlocks && Spoiled(j, Step(j, s, e).bus, s.bus.x.blkCntr)
  {
    LastBeatPrefetch(j, s.bus, XIns(j, s, e), s.line.received, Due(s.line));
    FirstStrict(j, Asked(s.line), j.t.numBlocks);
    FirstStrict(j, j.t.numBlocks, s.bus.x.blkCntr);
  }

  lemma {:induction false} UndrainedRun(j: Job, s: Sys, es: seq<Env>) returns (k: nat)
    requires ReadJob(j) && Rest(s) && Settled(j, s.bus) && LegalRun(j, s, es) && !DrainedRun(j, s, es)
    ensures k < j.t.numBlocks && Spoiled(j, Run(j, s, es).bus, k)
    decreases |es|
  {
    var last := |es| - 1;
    var m := Run(j, s, es[..last]);
    if DrainedRun(j, s, es[..last]) {
      RunKeepsInv(j, s, es[..last]);
      UndrainedSpoils(j, m, es[last]);
      k := m.bus.x.blkCntr;
    } else {
      k := UndrainedRun(j, s, es[..last]);
      SpoiledStays(j, m.bus, XIns(j, m, es[last]), k);
    }
  }

  lemma {:induction false} BurstOpens(j: Job, k: nat, n: nat)
    requires ReadJob(j) && k < n
    ensures First(j, k) < |Bursts(j, n)| && !Bursts(j, n)[First(j, k)].last
    decreases n
  {
    BurstsLength(j, n);
    BurstsLength(j, n - 1);
    FirstStrict(j, n, k);
    if k < n - 1 { BurstOpens(j, k, n - 1); }
  }

  /** A spoiled record is not the one a correct command leaves. */
  lemma SpoiledIsWrong(j: Job, b: Bus, k: nat)
    requires ReadJob(j) && k < j.t.numBlocks && Spoiled(j, b, k)
    ensures b.beats != Bursts(j, j.t.numBlocks)
  {
    BurstOpens(j, k, j.t.numBlocks);
    BurstsLength(j, k);
  }

  /** A finished read command has written its blocks correctly exactly when the FIFO drained at every burst's end. */
  lemma CorrectIffDrained(j: Job, s: Sys, es: seq<Env>)
    requires ReadJob(j) && Rest(s) && Settled(j, s.bus) && LegalRun(j, s, es)
    requires Run(j, s, es).line.started && !Run(j, s, es).line.p.waitRd
    ensures Run(j, s, es).bus.beats == Bursts(j, j.t.numBlocks) <==> DrainedRun(j, s, es)
  {
    if DrainedRun(j, s, es) {
      EndToEnd(j, s, es);
    } else {
      var k := UndrainedRun(j, s, es);
      SpoiledIsWrong(j, Run(j, s, es).bus, k);
    }
  }

  /** A read of one block always drains: there is no next block whose word could be in the FIFO. */
  lemma {:induction false} OneBlockDrains(j: Job, s: Sys, es: seq<Env>)
    requires ReadJob(j) && j.t.numBlocks == 1 && Rest(s) && Settled(j, s.bus) && LegalRun(j, s, es)
    ensures DrainedRun(j, s, es)
    decreases |es|
  {
    if es != [] {
      var last := |es| - 1;
      var m := Run(j, s, es[..last]);
      OneBlockDrains(j, s, es[..last]);
      RunKeepsInv(j, s, es[..last]);
      if !Drained(m.bus, XIns(j, m, es[last])) { UndrainedSpoils(j, m, es[last]); }
    }
  }

  /** Card to memory, end to end, with nothing asked of the bus: every one-block read is right. */
  lemma OneBlockEndToEnd(j: Job, s: Sys, es: seq<Env>)
    requires ReadJob(j) && j.t.numBlocks == 1 && Rest(s) && Settled(j, s.bus) && LegalRun(j, s, es)
    requires Run(j, s, es).line.started && !Run(j, s, es).line.p.waitRd
    ensures Run(j, s, es).bus.reqs == Requests(j, j.t.numBlocks) && Run(j, s, es).bus.beats == Bursts(j, j.t.numBlocks)
    ensures Run(j, s, es).line.asked == AskFrames(j, j.t.numBlocks)
  {
    OneBlockDrains(j, s, es);
    EndToEnd(j, s, es);
  }

  /** With such a beat queued, a burst announced with L beats ends after one. */
  lemma MarkedBeatEndsBurst(j: Job, b: Bus, i1: X.Ins, i2: X.Ins)
    requires ReadJob(j) && b.x.cs == X.Write && b.x.axlen == j.t.words - 1
    requires |b.x.queue| == 1 && b.x.queue[0].last
    requires i1.awready && i1.memRd && !i1.rvalid && i2.wready
    ensures var b' := BusNext(j, BusNext(j, b, i1), i2);
            && b'.x.cs == X.Wait && j.t.words >= 2
            && b'.reqs == b.reqs + [Request(b.x.addr, j.t.words)] && b'.beats == b.beats + [b.x.queue[0]]
  {
  }
}
