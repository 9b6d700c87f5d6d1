/** Memory to card: the joint invariant of both machines during a write command, and what it gives. */
module WritePath {
  import opened Words
  import opened Geometry
  import opened Transfer
  import P = Payload
  import X = AxiManager

  ghost predicate WriteJob(j: Job) { Sound(j.t) && j.isWrite }

  /** What the surroundings promise: no abort, and the response phase is entered once per command. */
  predicate Legal(l: Line, i: P.Ins) {
    !i.restart && (i.cmdRsp ==> l.p.waitWr || !l.started)
  }

  // ---------------------------------------------------------------- what should be on the wires

  /** Memory words lo up to hi of the transfer. */
  function MemWords(j: Job, lo: nat, hi: nat): (ws: seq<Word>)
    requires lo <= hi
    ensures |ws| == hi - lo
    ensures forall k :: 0 <= k < hi - lo ==> ws[k] == MemWord(j, lo + k)
  {
    seq(hi - lo, (k: nat) requires k < hi - lo => MemWord(j, lo + k))
  }

  /** The same words as beats of the data lines. */
  function DataBeats(j: Job, lo: nat, hi: nat): (bs: seq<P.TxBeat>)
    requires lo <= hi
    ensures |bs| == hi - lo
    ensures forall k :: 0 <= k < hi - lo ==> bs[k] == P.DataBeat(MemWord(j, lo + k))
  {
    seq(hi - lo, k requires 0 <= k < hi - lo => P.DataBeat(MemWord(j, lo + k)))
  }

  /** n blocks on the data lines: each block's memory words in order, then one two-byte CRC slot. */
  function Frames(j: Job, n: nat): seq<P.TxBeat> {
    if n == 0 then []
    else Frames(j, n - 1) + DataBeats(j, First(j, n - 1), First(j, n)) + [P.CrcBeat(2)]
  }

  // ---------------------------------------------------------------- the invariant, part by part

  /** The FIFO and its pending write register hold exactly the words fetched and not yet taken. */
  ghost predicate FifoInv(j: Job, b: Bus) {
    && b.popped + Pending(b) <= b.fetched
    && b.x.fifo == MemWords(j, b.popped, b.fetched - Pending(b))
    && (b.x.fifoWren ==> b.x.fifoWdata == MemWord(j, b.fetched - 1))
    && b.x.fifoCntr == |b.x.fifo|
    && |b.x.fifo| + Pending(b) <= j.t.depth - 1
    && b.x.queue == []
  }

  ghost predicate BusInv(j: Job, b: Bus) {
    var L, N, k := j.t.words, j.t.numBlocks, b.x.blkCntr;
    match b.x.cs
    case Idle => b.fetched == 0 && b.rdLeft == 0 && b.reqs == []
    case Wait =>
      && k <= N && b.fetched == First(j, k) && b.rdLeft == 0 && b.reqs == Requests(j, k)
      && b.x.axlenP1 == L && b.x.addr == Addr(j, First(j, k))
      && (if b.x.allDone then k == N || k == 0 else k < N)
    case Read =>
      && k < N && b.fetched == First(j, k) && b.rdLeft == 0 && b.reqs == Requests(j, k)
      && b.x.axlenP1 == L && b.x.axlen == L - 1 && b.x.addr == Addr(j, First(j, k))
    case Done =>
      && 1 <= k <= N && 1 <= b.rdLeft <= L && b.fetched + b.rdLeft == First(j, k) && b.reqs == Requests(j, k)
      && b.x.axlenP1 == L && b.x.addr == Addr(j, First(j, k - 1))
      && b.rdAddr == Addr(j, b.fetched)
    case Write => false
  }

  /** The payload half, given how many words were taken so far and how many the FIFO still shows. */
  ghost predicate LineInv(j: Job, l: Line, popped: nat, shown: nat, memAvail: bool) {
    var L, N, b := j.t.words, j.t.numBlocks, l.p.blkCntr;
    && l.started && l.p.waitWr && !l.p.waitRd && b <= N
    && (l.p.wr1rd0 ==> l.p.cs == P.Data || l.p.cs == P.Crc)
    && (l.p.last ==> l.p.cs == P.Data)
    && match l.p.cs
       case Idle =>
         && b < N && popped == First(j, b) && l.tx == Frames(j, b)
         && (memAvail ==> shown >= L)
       case Start =>
         && b < N && popped == First(j, b) && l.tx == Frames(j, b)
         && l.p.valid && !l.p.crcEn && l.p.cntr == 4 * L && shown >= L
       case Data =>
         && b < N && l.p.valid && l.p.wr1rd0 && !l.p.dcEn && !l.p.crcEn && l.p.lastByte == 3
         && First(j, b) < popped <= First(j, b + 1)
         && l.p.data == MemWord(j, popped - 1)
         && l.tx == Frames(j, b) + DataBeats(j, First(j, b), popped - 1)
         && (if l.p.last then popped == First(j, b + 1)
             else popped < First(j, b + 1) && l.p.cntr == 4 * (First(j, b + 1) - popped)
                  && shown >= First(j, b + 1) - popped)
       case Crc =>
         && 1 <= b && popped == First(j, b)
         && l.p.valid && l.p.wr1rd0 && !l.p.dcEn && l.p.crcEn && l.p.lastByte == 1
         && l.tx + [P.CrcBeat(2)] == Frames(j, b)
       case _ =>
         && 1 <= b && popped == First(j, b) && l.tx == Frames(j, b) && l.p.allDone == (b == N)
         && (l.p.cs == P.Dummy ==> l.p.valid)
  }

  ghost predicate Active(j: Job, s: Sys) {
    && FifoInv(j, s.bus) && BusInv(j, s.bus)
    && LineInv(j, s.line, s.bus.popped, |s.bus.x.fifo|, s.bus.x.memAvail)
  }

  // ---------------------------------------------------------------- each part is kept

  /** What the bus sees of a command that fetches. */
  ghost predicate Fetching(j: Job, b: Bus, i: X.Ins) {
    && i.memWr && !i.memRd && (i.procRden ==> b.x.fifo != [])
    && (i.rvalid ==> b.rdLeft > 0) && i.rlast == (b.rdLeft == 1) && i.rdata == j.mem(b.rdAddr)
  }

  /** What a clock does to the FIFO: its head is taken, the pending word enters, a fetched word is pending. */
  predicate Flows(b: Bus, b': Bus, took: bool, came: bool, word: Word) {
    && (took ==> b.x.fifo != [])
    && b'.popped == b.popped + Bit(took) && b'.fetched == b.fetched + Bit(came)
    && b'.x.fifo == (if took then b.x.fifo[1..] else b.x.fifo) + (if b.x.fifoWren then [b.x.fifoWdata] else [])
    && b'.x.fifoCntr == b.x.fifoCntr + Bit(b.x.fifoWren) - Bit(took)
    && b'.x.fifoWren == came && (came ==> b'.x.fifoWdata == word) && b'.x.queue == b.x.queue
  }

  lemma FifoFlows(j: Job, b: Bus, i: X.Ins)
    requires WriteJob(j) && FifoInv(j, b) && Fetching(j, b, i)
    ensures Flows(b, BusNext(j, b, i), i.procRden, X.ReadBeat(j.t, b.x, i), j.mem(b.rdAddr))
  {
  }

  lemma FifoParts(j: Job, b: Bus, b': Bus, took: bool, came: bool)
    requires FifoInv(j, b) && Flows(b, b', took, came, MemWord(j, b.fetched))
    requires came ==> |b.x.fifo| < j.t.depth - 2
    ensures FifoInv(j, b')
  {
  }

  lemma FifoKept(j: Job, b: Bus, i: X.Ins)
    requires WriteJob(j) && FifoInv(j, b) && BusInv(j, b) && Fetching(j, b, i)
    ensures FifoInv(j, BusNext(j, b, i))
  {
    FifoFlows(j, b, i);
    assert X.ReadBeat(j.t, b.x, i) ==> b.rdAddr == Addr(j, b.fetched);
    FifoParts(j, b, BusNext(j, b, i), i.procRden, X.ReadBeat(j.t, b.x, i));
  }

  lemma BusKept(j: Job, b: Bus, i: X.Ins)
    requires WriteJob(j) && FifoInv(j, b) && BusInv(j, b) && Fetching(j, b, i)
    requires b.x.cs != X.Done
    ensures BusInv(j, BusNext(j, b, i))
  {
  }

  lemma BurstKept(j: Job, b: Bus, i: X.Ins)
    requires WriteJob(j) && FifoInv(j, b) && BusInv(j, b) && Fetching(j, b, i)
    requires b.x.cs == X.Done
    ensures BusInv(j, BusNext(j, b, i))
  {
    AddrAdd(j, b.fetched, 1);
    AddrAdd(j, First(j, b.x.blkCntr - 1), j.t.words);
  }

  /** What the payload half is shown while `shown` words, the first of them word `popped`, are in the FIFO. */
  ghost predicate Shown(j: Job, l: Line, i: P.Ins, popped: nat, shown: nat) {
    && LineInv(j, l, popped, shown, i.memAvail) && Legal(l, i) && !i.readCmd
    && (shown > 0 ==> i.memRdat == MemWord(j, popped))
    && (P.MemRden(l.p, i) ==> shown > 0)
    && LineNext(j, l, i).p.waitWr
  }

  function Taken(l: Line, i: P.Ins): nat { if P.MemRden(l.p, i) then 1 else 0 }

  lemma IdleKept(j: Job, l: Line, i: P.Ins, popped: nat, shown: nat, shown': nat)
    requires WriteJob(j) && Shown(j, l, i, popped, shown) && shown' >= shown
    requires l.p.cs == P.Idle || l.p.cs == P.Wait
    ensures LineInv(j, LineNext(j, l, i), popped, shown', shown >= j.t.words)
  {
  }

  lemma StartKept(j: Job, l: Line, i: P.Ins, popped: nat, shown: nat, shown': nat)
    requires WriteJob(j) && Shown(j, l, i, popped, shown) && shown' >= shown - Taken(l, i)
    requires l.p.cs == P.Start
    ensures LineInv(j, LineNext(j, l, i), popped + Taken(l, i), shown', shown >= j.t.words)
  {
  }

  lemma DataKept(j: Job, l: Line, i: P.Ins, popped: nat, shown: nat, shown': nat)
    requires WriteJob(j) && Shown(j, l, i, popped, shown) && shown' >= shown - Taken(l, i)
    requires l.p.cs == P.Data && !(l.p.last && i.ready)
    ensures LineInv(j, LineNext(j, l, i), popped + Taken(l, i), shown', shown >= j.t.words)
  {
    var from := First(j, l.p.blkCntr);
    assert DataBeats(j, from, popped - 1) + [P.DataBeat(MemWord(j, popped - 1))] == DataBeats(j, from, popped);
  }

  lemma LastDataKept(j: Job, l: Line, i: P.Ins, popped: nat, shown: nat, shown': nat)
    requires WriteJob(j) && Shown(j, l, i, popped, shown) && shown' >= shown
    requires l.p.cs == P.Data && l.p.last && i.ready
    ensures LineInv(j, LineNext(j, l, i), popped, shown', shown >= j.t.words)
  {
    var from := First(j, l.p.blkCntr);
    assert DataBeats(j, from, popped - 1) + [P.DataBeat(MemWord(j, popped - 1))] == DataBeats(j, from, popped);
  }

  lemma CrcKept(j: Job, l: Line, i: P.Ins, popped: nat, shown: nat, shown': nat)
    requires WriteJob(j) && Shown(j, l, i, popped, shown)
    requires l.p.cs == P.Crc
    ensures LineInv(j, LineNext(j, l, i), popped, shown', shown >= j.t.words)
  {
  }

  lemma DummyKept(j: Job, l: Line, i: P.Ins, popped: nat, shown: nat, shown': nat)
    requires WriteJob(j) && Shown(j, l, i, popped, shown)
    requires l.p.cs == P.Dummy
    ensures LineInv(j, LineNext(j, l, i), popped, shown', shown >= j.t.words)
  {
  }

  lemma RspKept(j: Job, l: Line, i: P.Ins, popped: nat, shown: nat, shown': nat)
    requires WriteJob(j) && Shown(j, l, i, popped, shown)
    requires l.p.cs == P.Rsp
    ensures LineInv(j, LineNext(j, l, i), popped, shown', shown >= j.t.words)
  {
  }

  /** Inside a started block a pop always finds a word. */
  lemma PopFindsData(j: Job, l: Line, i: P.Ins, popped: nat, shown: nat)
    requires WriteJob(j) && LineInv(j, l, popped, shown, i.memAvail)
    ensures P.MemRden(l.p, i) ==> shown > 0
  {
  }

  lemma LineKept(j: Job, l: Line, i: P.Ins, popped: nat, shown: nat, shown': nat)
    requires WriteJob(j) && Shown(j, l, i, popped, shown) && shown' >= shown - Taken(l, i)
    ensures LineInv(j, LineNext(j, l, i), popped + Taken(l, i), shown', shown >= j.t.words)
  {
    match l.p.cs
    case Idle => IdleKept(j, l, i, popped, shown, shown');
    case Wait => IdleKept(j, l, i, popped, shown, shown');
    case Start => StartKept(j, l, i, popped, shown, shown');
    case Data =>
      if l.p.last && i.ready {
        LastDataKept(j, l, i, popped, shown, shown');
      } else {
        DataKept(j, l, i, popped, shown, shown');
      }
    case Crc => CrcKept(j, l, i, popped, shown, shown');
    case Dummy => DummyKept(j, l, i, popped, shown, shown');
    case Rsp => RspKept(j, l, i, popped, shown, shown');
  }

  // ---------------------------------------------------------------- end of the command

  /** The line side once the command is over. */
  ghost predicate LineOver(j: Job, l: Line) {
    && l.started && !l.p.waitWr && !l.p.waitRd && !l.p.wr1rd0 && !l.p.last
    && (l.p.cs == P.Wait || l.p.cs == P.Idle)
    && l.tx == Frames(j, j.t.numBlocks)
  }

  /** The bus side: every word of every block fetched and taken, nothing queued, pending or owed. */
  ghost predicate BusOver(j: Job, b: Bus) {
    var N := j.t.numBlocks;
    && b.fetched == First(j, N) && b.popped == First(j, N) && b.reqs == Requests(j, N)
    && b.x.fifo == [] && b.x.queue == [] && !b.x.fifoWren && b.x.fifoCntr == 0 && b.rdLeft == 0
    && (b.x.cs == X.Idle || (b.x.cs == X.Wait && b.x.allDone && b.x.blkCntr == N))
  }

  ghost predicate Finished(j: Job, s: Sys) { LineOver(j, s.line) && BusOver(j, s.bus) }

  ghost predicate Inv(j: Job, s: Sys) {
    if s.line.p.waitWr then Active(j, s) else if s.line.started then Finished(j, s) else Rest(s)
  }

  /** When the last block has been taken the bus has stopped: its own counter agrees without being told. */
  lemma AllTakenMeansBusOver(j: Job, b: Bus)
    requires WriteJob(j) && FifoInv(j, b) && BusInv(j, b)
    requires b.popped == First(j, j.t.numBlocks)
    ensures BusOver(j, b) && b.x.cs == X.Wait
  {
    FirstStrict(j, b.x.blkCntr, j.t.numBlocks);
    FirstStrict(j, j.t.numBlocks, b.x.blkCntr);
    FirstStrict(j, j.t.numBlocks, 0);
  }

  lemma BusStep(j: Job, b: Bus, i: X.Ins)
    requires WriteJob(j) && FifoInv(j, b) && BusInv(j, b) && Fetching(j, b, i)
    ensures FifoInv(j, BusNext(j, b, i)) && BusInv(j, BusNext(j, b, i))
  {
    FifoKept(j, b, i);
    if b.x.cs == X.Done { BurstKept(j, b, i); } else { BusKept(j, b, i); }
  }

  /** The FIFO loses at most the word the payload half takes. */
  lemma ShownNext(j: Job, b: Bus, i: X.Ins)
    requires FifoInv(j, b) && i.memWr && !i.memRd && (i.procRden ==> b.x.fifo != [])
    ensures BusNext(j, b, i).popped == b.popped + (if i.procRden then 1 else 0)
    ensures |BusNext(j, b, i).x.fifo| >= |b.x.fifo| - (if i.procRden then 1 else 0)
    ensures BusNext(j, b, i).x.memAvail <==> |b.x.fifo| >= j.t.words && b.x.fifo != []
  {
  }

  lemma BusMiddle(j: Job, s: Sys, e: Env)
    requires WriteJob(j) && Active(j, s)
    ensures var pi, b' := PIns(j, s, e), BusNext(j, s.bus, XIns(j, s, e));
            && FifoInv(j, b') && BusInv(j, b')
            && b'.popped == s.bus.popped + Taken(s.line, pi)
            && |b'.x.fifo| >= |s.bus.x.fifo| - Taken(s.line, pi)
            && b'.x.memAvail == (|s.bus.x.fifo| >= j.t.words)
  {
    PopFindsData(j, s.line, PIns(j, s, e), s.bus.popped, |s.bus.x.fifo|);
    BusStep(j, s.bus, XIns(j, s, e));
    ShownNext(j, s.bus, XIns(j, s, e));
  }

  lemma HeadShown(j: Job, s: Sys, e: Env)
    requires WriteJob(j) && Active(j, s) && Legal(s.line, PIns(j, s, e))
    requires LineNext(j, s.line, PIns(j, s, e)).p.waitWr
    ensures Shown(j, s.line, PIns(j, s, e), s.bus.popped, |s.bus.x.fifo|)
  {
    PopFindsData(j, s.line, PIns(j, s, e), s.bus.popped, |s.bus.x.fifo|);
  }

  lemma LineMiddle(j: Job, s: Sys, e: Env, b': Bus)
    requires WriteJob(j) && Active(j, s) && Legal(s.line, PIns(j, s, e))
    requires LineNext(j, s.line, PIns(j, s, e)).p.waitWr
    requires b'.popped == s.bus.popped + Taken(s.line, PIns(j, s, e))
    requires |b'.x.fifo| >= |s.bus.x.fifo| - Taken(s.line, PIns(j, s, e))
    requires b'.x.memAvail == (|s.bus.x.fifo| >= j.t.words)
    ensures LineInv(j, LineNext(j, s.line, PIns(j, s, e)), b'.popped, |b'.x.fifo|, b'.x.memAvail)
  {
    HeadShown(j, s, e);
    LineKept(j, s.line, PIns(j, s, e), s.bus.popped, |s.bus.x.fifo|, |b'.x.fifo|);
  }

  lemma MiddleStep(j: Job, s: Sys, e: Env)
    requires WriteJob(j) && Active(j, s) && Legal(s.line, PIns(j, s, e))
    requires LineNext(j, s.line, PIns(j, s, e)).p.waitWr
    ensures Active(j, Step(j, s, e))
  {
    BusMiddle(j, s, e);
    LineMiddle(j, s, e, BusNext(j, s.bus, XIns(j, s, e)));
  }

  lemma ActiveStep(j: Job, s: Sys, e: Env)
    requires WriteJob(j) && Active(j, s) && Legal(s.line, PIns(j, s, e))
    ensures Inv(j, Step(j, s, e))
  {
    var l' := LineNext(j, s.line, PIns(j, s, e));
    assert Step(j, s, e).line == l';
    if l'.p.waitWr { MiddleStep(j, s, e); } else { LastStep(j, s, e); }
  }

  lemma LastStep(j: Job, s: Sys, e: Env)
    requires WriteJob(j) && Active(j, s) && Legal(s.line, PIns(j, s, e))
    requires !LineNext(j, s.line, PIns(j, s, e)).p.waitWr
    ensures Finished(j, Step(j, s, e))
  {
    AllTakenMeansBusOver(j, s.bus);
  }

  lemma FinishedStep(j: Job, s: Sys, e: Env)
    requires WriteJob(j) && Finished(j, s) && Legal(s.line, PIns(j, s, e))
    ensures Finished(j, Step(j, s, e))
  {
  }

  lemma RestStep(j: Job, s: Sys, e: Env)
    requires WriteJob(j) && Rest(s) && Legal(s.line, PIns(j, s, e))
    ensures Inv(j, Step(j, s, e))
  {
  }

  // ---------------------------------------------------------------- whole runs

  /** Every clock of the run keeps the promise, judged in the state it meets. */
  ghost predicate LegalRun(j: Job, s: Sys, es: seq<Env>)
    decreases |es|
  {
    es == [] ||
    (var last := |es| - 1;
     LegalRun(j, s, es[..last]) &&
     Legal(Run(j, s, es[..last]).line, PIns(j, Run(j, s, es[..last]), es[last])))
  }

  /** Every state of every run of a write command is in the invariant. */
  lemma {:induction false} RunKeepsInv(j: Job, s: Sys, es: seq<Env>)
    requires WriteJob(j) && Rest(s) && LegalRun(j, s, es)
    ensures Inv(j, Run(j, s, es))
    decreases |es|
  {
    if es != [] {
      var last := |es| - 1;
      RunKeepsInv(j, s, es[..last]);
      var m := Run(j, s, es[..last]);
      if m.line.p.waitWr {
        ActiveStep(j, m, es[last]);
      } else if m.line.started {
        FinishedStep(j, m, es[last]);
      } else {
        RestStep(j, m, es[last]);
      }
    }
  }

  /** The data beats among transmit beats. */
  function Payload(tx: seq<P.TxBeat>): seq<Word> {
    if tx == [] then []
    else Payload(tx[..|tx| - 1]) + (match tx[|tx| - 1] case DataBeat(w) => [w] case _ => [])
  }

  lemma PayloadOfOne(tx: seq<P.TxBeat>, w: Word)
    ensures Payload(tx + [P.DataBeat(w)]) == Payload(tx) + [w]
  {
    assert (tx + [P.DataBeat(w)])[..|tx|] == tx;
  }

  lemma LastWord(j: Job, lo: nat, hi: nat)
    requires lo < hi
    ensures DataBeats(j, lo, hi) == DataBeats(j, lo, hi - 1) + [P.DataBeat(MemWord(j, hi - 1))]
    ensures MemWords(j, lo, hi) == MemWords(j, lo, hi - 1) + [MemWord(j, hi - 1)]
  {
  }

  lemma Regroup<T>(a: seq<T>, b: seq<T>, c: T)
    ensures a + (b + [c]) == a + b + [c]
  {
  }

  lemma {:induction false} PayloadOfData(j: Job, tx: seq<P.TxBeat>, lo: nat, hi: nat)
    requires lo <= hi
    ensures Payload(tx + DataBeats(j, lo, hi)) == Payload(tx) + MemWords(j, lo, hi)
    decreases hi
  {
    if lo == hi {
      assert tx + DataBeats(j, lo, hi) == tx;
    } else {
      PayloadOfData(j, tx, lo, hi - 1);
      PayloadOfOne(tx + DataBeats(j, lo, hi - 1), MemWord(j, hi - 1));
      LastWord(j, lo, hi);
      Regroup(tx, DataBeats(j, lo, hi - 1), P.DataBeat(MemWord(j, hi - 1)));
      Regroup(Payload(tx), MemWords(j, lo, hi - 1), MemWord(j, hi - 1));
    }
  }

  lemma MemWordsJoin(j: Job, a: nat, b: nat, c: nat)
    requires a <= b <= c
    ensures MemWords(j, a, b) + MemWords(j, b, c) == MemWords(j, a, c)
  {
  }

  lemma PayloadOfCrc(tx: seq<P.TxBeat>, n: nat)
    ensures Payload(tx + [P.CrcBeat(n)]) == Payload(tx)
  {
    assert (tx + [P.CrcBeat(n)])[..|tx|] == tx;
  }

  /** The words of n frames are the first n blocks of memory. */
  lemma {:induction false} PayloadOfFrames(j: Job, n: nat)
    ensures Payload(Frames(j, n)) == MemWords(j, 0, First(j, n))
  {
    if n > 0 {
      var lo, hi := First(j, n - 1), First(j, n);
      PayloadOfFrames(j, n - 1);
      PayloadOfData(j, Frames(j, n - 1), lo, hi);
      PayloadOfCrc(Frames(j, n - 1) + DataBeats(j, lo, hi), 2);
      MemWordsJoin(j, 0, lo, hi);
    }
  }

  /** How many words of the transfer have been handed to the SERDES. */
  function Sent(s: Sys): nat {
    if s.line.p.cs == P.Data && s.bus.popped > 0 then s.bus.popped - 1 else s.bus.popped
  }

  lemma SentInBlock(j: Job, s: Sys)
    requires WriteJob(j) && Active(j, s) && s.line.p.cs == P.Data
    ensures Payload(s.line.tx) == MemWords(j, 0, Sent(s))
  {
    var from := First(j, s.line.p.blkCntr);
    PayloadOfFrames(j, s.line.p.blkCntr);
    PayloadOfData(j, Frames(j, s.line.p.blkCntr), from, s.bus.popped - 1);
    MemWordsJoin(j, 0, from, s.bus.popped - 1);
  }

  /** In every reachable state, what was sent is exactly a prefix of the memory words. */
  lemma SentIsPrefix(j: Job, s: Sys)
    requires WriteJob(j) && Active(j, s)
    ensures Payload(s.line.tx) == MemWords(j, 0, Sent(s))
  {
    if s.line.p.cs == P.Data {
      SentInBlock(j, s);
    } else {
      PayloadOfFrames(j, s.line.p.blkCntr);
      PayloadOfCrc(s.line.tx, 2);
    }
  }

  /** The two block counters never pass each other: sent <= fetched <= requested <= ordered. */
  lemma CountersOrdered(j: Job, s: Sys)
    requires WriteJob(j) && Active(j, s) && s.bus.x.cs != X.Idle
    ensures First(j, s.line.p.blkCntr) <= s.bus.popped <= s.bus.fetched <= First(j, s.bus.x.blkCntr)
    ensures s.line.p.blkCntr <= s.bus.x.blkCntr <= j.t.numBlocks
    ensures s.line.p.cs == P.Start || s.line.p.cs == P.Data ==> s.line.p.blkCntr < j.t.numBlocks
  {
    FirstStrict(j, s.line.p.blkCntr, s.bus.x.blkCntr);
  }

  /** Memory to card, end to end. */
  lemma EndToEnd(j: Job, s: Sys, es: seq<Env>)
    requires WriteJob(j) && Rest(s) && LegalRun(j, s, es)
    requires Run(j, s, es).line.started && !Run(j, s, es).line.p.waitWr
    ensures Run(j, s, es).line.tx == Frames(j, j.t.numBlocks)
    ensures Payload(Run(j, s, es).line.tx) == MemWords(j, 0, j.t.numBlocks * j.t.words)
    ensures Run(j, s, es).bus.reqs == Requests(j, j.t.numBlocks)
  {
    RunKeepsInv(j, s, es);
    PayloadOfFrames(j, j.t.numBlocks);
    FirstIsProduct(j, j.t.numBlocks);
  }
}
