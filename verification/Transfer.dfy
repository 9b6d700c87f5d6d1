/** Both machines wired together, with the memory, the card and a record of what crossed each interface. */
module Transfer {
  import opened Words
  import opened Geometry
  import P = Payload
  import X = AxiManager

  /** One data command: its tables, its direction and the data at either end. */
  datatype Job = Job(t: Tables, isWrite: bool, busTestWr: bool, mem: nat -> Word, card: nat -> Word)

  /** An address-channel request, in words. */
  datatype Request = Request(addr: nat, len: nat)

  /** The bus manager, the read burst the memory still owes, and the record of the bus side. */
  datatype Bus = Bus(
    x: X.Regs, rdAddr: nat, rdLeft: nat,
    fetched: nat, popped: nat, reqs: seq<Request>, beats: seq<X.Beat>)

  /** The payload half, the read beats it has handed over, how many of them the SERDES still owes an answer, the words
      and end marks it has answered with, and the record of what was sent. */
  datatype Line = Line(
    p: P.Regs, asked: seq<P.AskBeat>, owed: nat, received: nat, marks: nat, started: bool, tx: seq<P.TxBeat>)

  datatype Sys = Sys(line: Line, bus: Bus)

  /** The environment's choices for one clock. */
  datatype Env = Env(
    ready: bool, rx: bool, rxEnd: bool, datLine: bool, clkVld: bool,
    cmdIdle: bool, cmdRsp: bool, cmdWait: bool, kick: bool, restart: bool,
    arready: bool, rvalid: bool, awready: bool, wready: bool)

  function PIns(j: Job, s: Sys, e: Env): P.Ins {
    P.Ins(ready := e.ready, rxValid := e.rx, rxEnd := e.rxEnd, datLine := e.datLine, clkVld := e.clkVld,
          memAvail := s.bus.x.memAvail, memRdat := X.Head(s.bus.x), memFree := s.bus.x.memFree,
          reqDone := X.ReqDone(s.bus.x),
          cmdIdle := e.cmdIdle, cmdRsp := e.cmdRsp, cmdWait := e.cmdWait, kick := e.kick, restart := e.restart,
          writeCmd := j.isWrite, readCmd := !j.isWrite, busTestWr := j.busTestWr)
  }

  function XIns(j: Job, s: Sys, e: Env): X.Ins {
    X.Ins(arready := e.arready, rvalid := e.rvalid && s.bus.rdLeft > 0,
          rdata := j.mem(s.bus.rdAddr), rlast := s.bus.rdLeft == 1,
          awready := e.awready, wready := e.wready,
          memRd := s.line.p.waitRd, memWr := s.line.p.waitWr,
          procRden := P.MemRden(s.line.p, PIns(j, s, e)), procWren := P.MemWren(s.line.p, PIns(j, s, e)),
          procWdat := j.card(s.line.received))
  }

  function BusNext(j: Job, b: Bus, i: X.Ins): Bus {
    var readReq := X.ReadReq(b.x, i);
    var readBeat := X.ReadBeat(j.t, b.x, i);
    Bus(
      x := X.Next(j.t, b.x, i),
      rdAddr := if readReq then b.x.addr else if readBeat then (b.rdAddr + 1) % AXI_WORDS else b.rdAddr,
      rdLeft := if readReq then b.x.axlen + 1 else if readBeat && b.rdLeft > 0 then b.rdLeft - 1 else b.rdLeft,
      fetched := b.fetched + (if readBeat then 1 else 0),
      popped := b.popped + (if X.FifoRden(b.x, i) then 1 else 0),
      reqs := b.reqs + (if readReq || X.WriteReq(b.x, i) then [Request(b.x.addr, b.x.axlen + 1)] else []),
      beats := b.beats + (if X.WriteBeat(b.x, i) then [b.x.queue[0]] else []))
  }

  function LineNext(j: Job, l: Line, i: P.Ins): Line {
    var p' := P.Next(j.t, l.p, i);
    Line(
      p := p',
      asked := l.asked + (if l.p.waitRd && P.Asks(l.p, i) then [P.AskOf(l.p)] else []),
      owed := l.owed + (if l.p.waitRd && P.Asks(l.p, i) then 1 else 0)
              - (if l.p.waitRd && i.rxValid && l.owed > 0 then 1 else 0),
      received := l.received + (if P.MemWren(l.p, i) then 1 else 0),
      marks := l.marks + (if l.p.waitRd && i.rxValid && i.rxEnd then 1 else 0),
      started := l.started || p'.waitWr || p'.waitRd,
      tx := l.tx + (if P.Transmits(l.p, i) then [P.Beat(l.p)] else []))
  }

  /** One clock of the whole transfer engine. */
  function Step(j: Job, s: Sys, e: Env): Sys {
    Sys(LineNext(j, s.line, PIns(j, s, e)), BusNext(j, s.bus, XIns(j, s, e)))
  }

  /** The state after a run of clocks. */
  function Run(j: Job, s: Sys, es: seq<Env>): Sys
    decreases |es|
  {
    if es == [] then s else Step(j, Run(j, s, es[..|es| - 1]), es[|es| - 1])
  }

  /** One more clock of a run. */
  lemma RunOneMore(j: Job, s: Sys, es: seq<Env>, e: Env)
    ensures Run(j, s, es + [e]) == Step(j, Run(j, s, es), e)
    ensures (es + [e])[..|es|] == es && (es + [e])[|es|] == e
  {
  }

  /** Both machines idle with every queue empty, and nothing recorded yet. */
  predicate Rest(s: Sys) {
    LineRest(s.line) && BusRest(s.bus)
  }

  predicate LineRest(l: Line) {
    && l.p.cs == P.Idle && !l.p.waitWr && !l.p.waitRd && l.p.blkCntr == 0 && !l.p.wr1rd0 && !l.p.last
    && l.asked == [] && l.owed == 0 && !l.started && l.received == 0 && l.marks == 0 && l.tx == []
  }

  predicate BusRest(b: Bus) {
    && b.x.cs == X.Idle && b.x.fifo == [] && b.x.queue == [] && !b.x.fifoWren && b.x.fifoCntr == 0
    && !b.x.memAvail && b.rdLeft == 0
    && b.fetched == 0 && b.popped == 0 && b.reqs == [] && b.beats == []
  }

  /** The first word of block k, counted from the start of the transfer. */
  function First(j: Job, k: nat): nat {
    if k == 0 then 0 else First(j, k - 1) + j.t.words
  }

  lemma {:induction false} FirstIsProduct(j: Job, k: nat)
    ensures First(j, k) == k * j.t.words
  {
    if k > 0 { FirstIsProduct(j, k - 1); }
  }

  lemma {:induction false} FirstMonotone(j: Job, k: nat, n: nat)
    requires k <= n && 1 <= j.t.words
    ensures First(j, k) + (n - k) <= First(j, n)
  {
    if k < n { FirstMonotone(j, k, n - 1); }
  }

  /** The memory address of word k of the transfer. */
  function Addr(j: Job, k: nat): nat { (j.t.base + k) % AXI_WORDS }

  function MemWord(j: Job, k: nat): Word { j.mem(Addr(j, k)) }

  /** The request a correct k-th burst makes. */
  function BurstReq(j: Job, k: nat): Request { Request(Addr(j, First(j, k)), j.t.words) }

  /** The requests of n correct bursts. */
  function Requests(j: Job, n: nat): (rs: seq<Request>)
    ensures |rs| == n
    ensures forall k :: 0 <= k < n ==> rs[k] == BurstReq(j, k)
  {
    seq(n, k requires 0 <= k < n => BurstReq(j, k))
  }

  lemma FirstStrict(j: Job, k: nat, n: nat)
    requires 1 <= j.t.words
    ensures First(j, k) <= First(j, n) <==> k <= n
  {
    if k <= n { FirstMonotone(j, k, n); } else { FirstMonotone(j, n, k); }
  }

  /** The word in the FIFO's pending write register. */
  function Pending(b: Bus): nat { Bit(b.x.fifoWren) }

  lemma AddrAdd(j: Job, a: nat, b: nat)
    ensures (Addr(j, a) + b) % AXI_WORDS == Addr(j, a + b)
  {
  }
}
