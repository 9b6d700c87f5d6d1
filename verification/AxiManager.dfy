/** The bus manager: burst state machine, word FIFO, one-entry write queue and the flags it registers. */
module AxiManager {
  import opened Words
  import opened Geometry

  datatype State = Idle | Wait | Read | Write | Done

  datatype Beat = Beat(last: bool, data: Word)

  datatype Regs = Regs(
    cs: State, axlenP1: nat, axlen: nat, addr: nat, wlast: bool, wcntr: nat,
    fifoWren: bool, fifoWdata: Word, fifo: seq<Word>, queue: seq<Beat>,
    fifoCntr: int, memAvail: bool, memFree: bool, gteqAxlen: bool,
    blkCntr: nat, allDone: bool)

  datatype Ins = Ins(
    arready: bool, rvalid: bool, rdata: Word, rlast: bool, awready: bool, wready: bool,
    memRd: bool, memWr: bool, procRden: bool, procWren: bool, procWdat: Word)

  predicate RReady(t: Tables, s: Regs) { |s.fifo| < t.depth - 2 }
  predicate ReadBeat(t: Tables, s: Regs, i: Ins) { i.rvalid && RReady(t, s) }
  predicate ReadDone(t: Tables, s: Regs, i: Ins) { ReadBeat(t, s, i) && i.rlast }
  predicate ReadReq(s: Regs, i: Ins) { s.cs == Read && i.arready }

  predicate WValid(s: Regs) { s.queue != [] && s.cs == Done }
  predicate WriteBeat(s: Regs, i: Ins) { WValid(s) && i.wready }
  predicate WriteDone(s: Regs, i: Ins) { WriteBeat(s, i) && s.queue[0].last }
  predicate WriteReq(s: Regs, i: Ins) { s.cs == Write && i.awready }

  /** emmc_req_done */
  predicate ReqDone(s: Regs) { s.allDone && s.cs == Wait }

  /** axi4_wdatq_wren */
  predicate QueueWren(s: Regs, i: Ins) {
    s.cs != Idle && s.cs != Wait && i.memRd && s.fifo != [] && (s.queue == [] || WriteBeat(s, i))
  }

  /** dat_fifo_rden */
  predicate FifoRden(s: Regs, i: Ins) {
    s.fifo != [] && ((i.memRd && QueueWren(s, i)) || (i.memWr && i.procRden))
  }

  /** dat_fifo_rdata; an empty FIFO shows its last word, written here as 0 */
  function Head(s: Regs): Word { if s.fifo == [] then 0 else s.fifo[0] }

  function FifoNext(t: Tables, s: Regs, i: Ins): seq<Word> {
    (if FifoRden(s, i) then s.fifo[1..] else s.fifo) +
    (if s.fifoWren && |s.fifo| < t.depth then [s.fifoWdata] else [])
  }

  function QueueNext(s: Regs, i: Ins): seq<Beat> {
    (if WriteBeat(s, i) then [] else s.queue) +
    (if QueueWren(s, i) then [Beat(s.wlast, s.fifo[0])] else [])
  }

  function StateNext(t: Tables, s: Regs, i: Ins): State {
    match s.cs
    case Wait =>
      if s.allDone then (if !(i.memWr || i.memRd) then Idle else Wait)
      else if i.memWr then Read
      else if i.memRd && s.gteqAxlen then Write
      else Wait
    case Read => if ReadReq(s, i) then Done else Read
    case Write => if WriteReq(s, i) then Done else Write
    case Done => if WriteDone(s, i) || ReadDone(t, s, i) then Wait else Done
    case Idle => if i.memWr || i.memRd then Wait else Idle
  }

  /** wcntr_d */
  function WcntrD(s: Regs, i: Ins): nat {
    if s.wcntr > 0 && QueueWren(s, i) then s.wcntr - 1 else s.wcntr
  }

  /** One clock of the manager. */
  function Next(t: Tables, s: Regs, i: Ins): Regs {
    Regs(
      cs := StateNext(t, s, i),
      axlenP1 := if s.cs == Idle then t.burstLen else s.axlenP1,
      axlen := (s.axlenP1 + 255) % 256,
      addr := if s.cs == Idle then t.base
              else if s.cs == Done && (WriteDone(s, i) || ReadDone(t, s, i))
              then (s.addr + s.axlenP1) % AXI_WORDS else s.addr,
      wlast := s.cs != Idle && WcntrD(s, i) == 0,
      wcntr := if s.cs == Idle then 0 else if s.cs == Wait then s.axlen else WcntrD(s, i),
      fifoWren := |s.fifo| < t.depth && ((i.memRd && i.procWren) || (i.memWr && ReadBeat(t, s, i))),
      fifoWdata := if i.memRd then i.procWdat else i.rdata,
      fifo := FifoNext(t, s, i),
      queue := QueueNext(s, i),
      fifoCntr := s.fifoCntr + (if s.fifoWren then 1 else 0) - (if FifoRden(s, i) then 1 else 0),
      memAvail := s.fifoCntr != 0 && s.fifoCntr >= t.words,
      memFree := s.fifoCntr <= t.words,
      gteqAxlen := s.fifoCntr >= s.axlen,
      blkCntr := if s.cs == Idle then 0
                 else s.blkCntr + (if ReadReq(s, i) || WriteReq(s, i) then 1 else 0),
      allDone := s.blkCntr == t.numBlocks)
  }

  // ---------------------------------------------------------------- the clocked blocks

  /** The combinational signals the blocks share: handshakes on the bus, and what moves in the FIFO and the queue. */
  datatype Wires = Wires(
    reqDone: bool, datDone: bool, rdVld: bool, wrVld: bool, queueWren: bool, fifoRden: bool)

  function WiresOf(t: Tables, s: Regs, i: Ins): Wires {
    Wires(ReadReq(s, i) || WriteReq(s, i), WriteDone(s, i) || ReadDone(t, s, i), ReadBeat(t, s, i), WriteBeat(s, i),
          QueueWren(s, i), FifoRden(s, i))
  }

  method Signals(t: Tables, s: Regs, i: Ins) returns (w: Wires)
    ensures w == WiresOf(t, s, i)
  {
    var awvalid, arvalid, wvalid := s.cs == Write, s.cs == Read, |s.queue| > 0 && s.cs == Done;
    var rready := |s.fifo| < t.depth - 2;
    var wrVld, rdVld := wvalid && i.wready, i.rvalid && rready;
    var datDone := rdVld && i.rlast;
    if wrVld && s.queue[0].last { datDone := true; }
    var wren := false;
    if s.cs != Idle && s.cs != Wait { wren := i.memRd && |s.fifo| > 0 && (|s.queue| == 0 || wrVld); }
    var rden := |s.fifo| > 0 && ((i.memRd && wren) || (i.memWr && i.procRden));
    w := Wires((awvalid && i.awready) || (arvalid && i.arready), datDone, rdVld, wrVld, wren, rden);
  }

  /** Between bursts: later assignments override earlier ones, and every read is from before the edge. */
  method EdgeBetween(t: Tables, s: Regs, i: Ins, w: Wires) returns (b: Burst)
    requires w == WiresOf(t, s, i) && (s.cs == Idle || s.cs == Wait)
    ensures b == BurstOf(Next(t, s, i))
  {
    var cs, axlenP1, addr, blkCntr, wcntr, wlast := s.cs, s.axlenP1, s.addr, s.blkCntr, s.wcntr, s.wcntr == 0;
    if s.cs == Wait {
      wcntr := s.axlen;
      if s.allDone {
        if !(i.memWr || i.memRd) { cs := Idle; }
      } else if i.memWr {
        cs := Read;
      } else if i.memRd && s.gteqAxlen {
        cs := Write;
      }
    } else {
      blkCntr, wcntr, wlast, addr, axlenP1 := 0, 0, false, t.base, t.burstLen;
      if i.memWr || i.memRd { cs := Wait; }
    }
    b := Burst(cs, axlenP1, (s.axlenP1 + 255) % 256, addr, wlast, wcntr, blkCntr, s.blkCntr == t.numBlocks);
  }

  /** From the request of a burst to its last beat. */
  method EdgeWithin(t: Tables, s: Regs, i: Ins, w: Wires) returns (b: Burst)
    requires w == WiresOf(t, s, i) && (s.cs == Read || s.cs == Write || s.cs == Done)
    ensures b == BurstOf(Next(t, s, i))
  {
    var cs, addr, blkCntr, wcntr := s.cs, s.addr, s.blkCntr, s.wcntr;
    if w.reqDone { blkCntr := blkCntr + 1; }
    if wcntr > 0 && w.queueWren { wcntr := wcntr - 1; }
    if s.cs == Done {
      if w.datDone { cs, addr := Wait, (addr + s.axlenP1) % AXI_WORDS; }
    } else if w.reqDone {
      cs := Done;
    }
    b := Burst(cs, s.axlenP1, (s.axlenP1 + 255) % 256, addr, wcntr == 0, wcntr, blkCntr, s.blkCntr == t.numBlocks);
  }

  /** The burst state machine and its counters. */
  method EdgeBurst(t: Tables, s: Regs, i: Ins, w: Wires) returns (b: Burst)
    requires w == WiresOf(t, s, i)
    ensures b == BurstOf(Next(t, s, i))
  {
    if s.cs == Idle || s.cs == Wait {
      b := EdgeBetween(t, s, i, w);
    } else {
      b := EdgeWithin(t, s, i, w);
    }
  }

  /** The block that counts the FIFO. */
  method EdgeCount(t: Tables, s: Regs, i: Ins, w: Wires) returns (c: Count)
    requires w == WiresOf(t, s, i)
    ensures c == CountOf(Next(t, s, i))
  {
    var fifoCntr := s.fifoCntr;
    if !s.fifoWren && w.fifoRden {
      fifoCntr := fifoCntr - 1;
    } else if s.fifoWren && !w.fifoRden {
      fifoCntr := fifoCntr + 1;
    }
    c := Count(fifoCntr, s.fifoCntr != 0 && s.fifoCntr >= t.words, s.fifoCntr <= t.words, s.fifoCntr >= s.axlen);
  }

  /** The FIFO, its write register and the write queue. */
  method EdgeQueues(t: Tables, s: Regs, i: Ins, w: Wires) returns (store: Store, fifo: seq<Word>, queue: seq<Beat>)
    requires w == WiresOf(t, s, i)
    ensures var n := Next(t, s, i); store == Store(n.fifoWren, n.fifoWdata) && fifo == n.fifo && queue == n.queue
  {
    fifo, queue := s.fifo, s.queue;
    var full := |s.fifo| >= t.depth;
    if w.fifoRden { fifo := fifo[1..]; }
    if s.fifoWren && !full { fifo := fifo + [s.fifoWdata]; }
    if w.wrVld { queue := []; }
    if w.queueWren { queue := queue + [Beat(s.wlast, s.fifo[0])]; }
    store := Store(
      (i.memRd && !full && i.procWren) || (i.memWr && !full && w.rdVld), if i.memRd then i.procWdat else i.rdata);
  }

  datatype Burst = Burst(
    cs: State, axlenP1: nat, axlen: nat, addr: nat, wlast: bool, wcntr: nat, blkCntr: nat, allDone: bool)
  datatype Store = Store(wren: bool, wdata: Word)
  datatype Count = Count(fifoCntr: int, memAvail: bool, memFree: bool, gteqAxlen: bool)

  function BurstOf(s: Regs): Burst {
    Burst(s.cs, s.axlenP1, s.axlen, s.addr, s.wlast, s.wcntr, s.blkCntr, s.allDone)
  }

  function CountOf(s: Regs): Count { Count(s.fifoCntr, s.memAvail, s.memFree, s.gteqAxlen) }

  /** The manager, one field for the registers of each clocked block and one for each queue. */
  class Manager {
    var burst: Burst
    var store: Store
    var count: Count
    var datFifo: seq<Word>
    var wdatQueue: seq<Beat>

    function Value(): Regs
      reads this
    {
      Regs(burst.cs, burst.axlenP1, burst.axlen, burst.addr, burst.wlast, burst.wcntr, store.wren, store.wdata,
           datFifo, wdatQueue, count.fifoCntr, count.memAvail, count.memFree, count.gteqAxlen,
           burst.blkCntr, burst.allDone)
    }

    /** Reset. */
    constructor ()
      ensures Value() == Regs(Idle, 0, 0, 0, false, 0, false, 0, [], [], 0, false, false, false, 0, false)
    {
      burst := Burst(Idle, 0, 0, 0, false, 0, 0, false);
      store := Store(false, 0);
      count := Count(0, false, false, false);
      datFifo, wdatQueue := [], [];
    }

    /** One clock edge: all the registers take their next values at once. */
    method Tick(t: Tables, i: Ins)
      modifies this
      ensures Value() == Next(t, old(Value()), i)
    {
      var s := Value();
      var w := Signals(t, s, i);
      var b := EdgeBurst(t, s, i, w);
      var c := EdgeCount(t, s, i, w);
      var st, fifo, queue := EdgeQueues(t, s, i, w);
      burst, count, store, datFifo, wdatQueue := b, c, st, fifo, queue;
    }
  }
}
