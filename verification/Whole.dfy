/** A data command in the wired whole: command processor, bus manager, memory and card, from a started command to its
    last word. */
module Whole {
  import opened Words
  import opened CommandProc
  import E = Exchange
  import H = Handshake
  import P = Payload
  import T = Transfer
  import X = AxiManager
  import W = WritePath
  import G = Progress
  import L = ResponsePhase
  import A = CardAnswer
  import R = ReadPath
  import V = ReadProgress

  /** The command processor and the bus manager, each with the record of what crossed its interfaces. */
  datatype Sys = Sys(
    x: E.Sys, asked: seq<P.AskBeat>, owed: nat, received: nat, marks: nat, started: bool, tx: seq<P.TxBeat>,
    bus: T.Bus)

  /** One clock's inputs from outside: both SERDES channels and the registers, and the memory's handshakes. */
  datatype Env = Env(
    csr: CsrIns, cmd: CmdIns, pld: PldIns, arready: bool, rvalid: bool, awready: bool, wready: bool)

  /** What the command processor sees: outside, and the bus manager. */
  function Wired(z: Sys, e: Env): Ins {
    var x := z.bus.x;
    Ins(e.csr, e.cmd, e.pld, BusIns(x.memAvail, X.Head(x), x.memFree, X.ReqDone(x)))
  }

  /** The data side of it: payload half and bus manager. */
  function DataSide(z: Sys): T.Sys {
    T.Sys(T.Line(z.x.e.p, z.asked, z.owed, z.received, z.marks, z.started, z.tx), z.bus)
  }

  /** What the data side sees of the command half and of outside. */
  function DataEnv(z: Sys, e: Env): T.Env {
    var i := PIns(z.x.e, Wired(z, e));
    T.Env(ready := i.ready, rx := i.rxValid, rxEnd := i.rxEnd, datLine := i.datLine, clkVld := i.clkVld,
          cmdIdle := i.cmdIdle, cmdRsp := i.cmdRsp, cmdWait := i.cmdWait, kick := i.kick, restart := i.restart,
          arready := e.arready, rvalid := e.rvalid, awready := e.awready, wready := e.wready)
  }

  /** One clock of both. */
  function Step(j: T.Job, z: Sys, e: Env): Sys {
    var l := T.LineNext(j, DataSide(z).line, PIns(z.x.e, Wired(z, e)));
    Sys(E.Step(z.x, Wired(z, e)), l.asked, l.owed, l.received, l.marks, l.started, l.tx,
        T.BusNext(j, z.bus, T.XIns(j, DataSide(z), DataEnv(z, e))))
  }

  /** The run ends when the engine is idle again. */
  function Run(j: T.Job, z: Sys, es: seq<Env>): Sys
    decreases |es|
  {
    if es == [] then z
    else
      var m := Run(j, z, es[..|es| - 1]);
      if m.x.e.c.cs == Idle then m else Step(j, m, es[|es| - 1])
  }

  /** The registers hold this command and this transfer. */
  predicate Holds(j: T.Job, o: E.Order) {
    && j.isWrite == WriteIndex(o.idx, o.arg) && !j.isWrite == ReadIndex(o.idx, o.arg) && j.busTestWr == (o.idx == 19)
  }

  predicate Legal(j: T.Job, o: E.Order, resp: seq<E.Octet>, z: Sys, e: Env) {
    E.Legal(o, resp, z.x, Wired(z, e)) && e.csr.t == j.t
  }

  ghost predicate LegalRun(j: T.Job, o: E.Order, resp: seq<E.Octet>, z: Sys, es: seq<Env>)
    decreases |es|
  {
    es == [] ||
    (var m := Run(j, z, es[..|es| - 1]);
     && LegalRun(j, o, resp, z, es[..|es| - 1])
     && (m.x.e.c.cs != Idle ==> Legal(j, o, resp, m, es[|es| - 1])))
  }

  // ---------------------------------------------------------------- the two halves of a run

  /** The command half's part of a run. */
  function CommandRun(j: T.Job, z: Sys, es: seq<Env>): seq<Ins>
    decreases |es|
  {
    if es == [] then []
    else
      var m, before := Run(j, z, es[..|es| - 1]), CommandRun(j, z, es[..|es| - 1]);
      if m.x.e.c.cs == Idle then before else before + [Wired(m, es[|es| - 1])]
  }

  /** The data side's. */
  function DataRun(j: T.Job, z: Sys, es: seq<Env>): seq<T.Env>
    decreases |es|
  {
    if es == [] then []
    else
      var m, before := Run(j, z, es[..|es| - 1]), DataRun(j, z, es[..|es| - 1]);
      if m.x.e.c.cs == Idle then before else before + [DataEnv(m, es[|es| - 1])]
  }

  lemma SameInputs(j: T.Job, o: E.Order, z: Sys, e: Env)
    requires Holds(j, o) && E.Carries(o, Wired(z, e))
    ensures T.PIns(j, DataSide(z), DataEnv(z, e)) == PIns(z.x.e, Wired(z, e))
  {
  }

  lemma StepIsBoth(j: T.Job, o: E.Order, resp: seq<E.Octet>, z: Sys, e: Env)
    requires Holds(j, o) && Legal(j, o, resp, z, e)
    ensures DataSide(Step(j, z, e)) == T.Step(j, DataSide(z), DataEnv(z, e))
  {
    SameInputs(j, o, z, e);
  }

  /** A run of the whole is a run of each half, and legal for the command half. */
  lemma {:induction false} RunIsBoth(j: T.Job, o: E.Order, resp: seq<E.Octet>, z: Sys, es: seq<Env>)
    requires Holds(j, o) && LegalRun(j, o, resp, z, es)
    ensures Run(j, z, es).x == E.Run(z.x, CommandRun(j, z, es)) && E.LegalRun(o, resp, z.x, CommandRun(j, z, es))
    ensures DataSide(Run(j, z, es)) == T.Run(j, DataSide(z), DataRun(j, z, es))
    decreases |es|
  {
    if es != [] {
      var m, e := Run(j, z, es[..|es| - 1]), es[|es| - 1];
      RunIsBoth(j, o, resp, z, es[..|es| - 1]);
      if m.x.e.c.cs != Idle {
        StepIsBoth(j, o, resp, m, e);
        L.RunOneMore(z.x, CommandRun(j, z, es[..|es| - 1]), Wired(m, e));
        T.RunOneMore(j, DataSide(z), DataRun(j, z, es[..|es| - 1]), DataEnv(m, e));
      }
    }
  }

  // ---------------------------------------------------------------- writes

  /** A write that has just been taken up, with everything at rest on the data side. */
  predicate WriteBegins(j: T.Job, o: E.Order, z: Sys) {
    Holds(j, o) && j.isWrite && o.rspTyp != R0 && T.Rest(DataSide(z)) && L.Fresh(z.x)
  }

  lemma {:induction false} StartedIsWaited(j: T.Job, o: E.Order, resp: seq<E.Octet>, z: Sys, es: seq<Env>)
    requires Holds(j, o) && LegalRun(j, o, resp, z, es) && T.Rest(DataSide(z))
    ensures Run(j, z, es).started == L.Waited(z.x, CommandRun(j, z, es))
    decreases |es|
  {
    RunIsBoth(j, o, resp, z, es);
    if es != [] {
      var m, e, ins := Run(j, z, es[..|es| - 1]), es[|es| - 1], CommandRun(j, z, es[..|es| - 1]);
      StartedIsWaited(j, o, resp, z, es[..|es| - 1]);
      L.RunOneMore(z.x, ins, Wired(m, e));
    }
  }

  /** A run that has not missed the end of its response had not done so a clock earlier. */
  lemma NotMissedBefore(j: T.Job, o: E.Order, resp: seq<E.Octet>, z: Sys, es: seq<Env>)
    requires Holds(j, o) && E.Answers(o, resp) && L.Fresh(z.x) && LegalRun(j, o, resp, z, es) && es != []
    requires !L.Missed(o, Run(j, z, es).x)
    ensures !L.Missed(o, Run(j, z, es[..|es| - 1]).x)
  {
    var before, m, e := es[..|es| - 1], Run(j, z, es[..|es| - 1]), es[|es| - 1];
    var ins := CommandRun(j, z, before);
    RunIsBoth(j, o, resp, z, es);
    RunIsBoth(j, o, resp, z, before);
    L.RunOneMore(z.x, ins, Wired(m, e));
    if L.Missed(o, m.x) { L.MissedForEver(o, resp, z.x, ins + [Wired(m, e)], |ins|); }
  }

  /** What reaches the data side of a write that does not miss the end of its response is what the data side asks. */
  lemma {:induction false} WriteRun(j: T.Job, o: E.Order, resp: seq<E.Octet>, z: Sys, es: seq<Env>)
    requires E.Answers(o, resp) && WriteBegins(j, o, z) && LegalRun(j, o, resp, z, es)
    requires !L.Missed(o, Run(j, z, es).x)
    ensures G.RunningRun(j, DataSide(z), DataRun(j, z, es))
    decreases |es|
  {
    if es != [] {
      var before, m, e := es[..|es| - 1], Run(j, z, es[..|es| - 1]), es[|es| - 1];
      var ins := CommandRun(j, z, before);
      RunIsBoth(j, o, resp, z, before);
      StartedIsWaited(j, o, resp, z, before);
      if m.x.e.c.cs != Idle {
        NotMissedBefore(j, o, resp, z, es);
        WriteRun(j, o, resp, z, before);
        L.WriteIsLegal(o, resp, z.x, ins, Wired(m, e), DataSide(m).line);
        SameInputs(j, o, m, e);
        G.RunningOneMore(j, DataSide(z), DataRun(j, z, before), DataEnv(m, e));
      } else {
        WriteRun(j, o, resp, z, before);
      }
    }
  }

  /** Exactly the memory words have been handed to the data SERDES, framed, with one request per block. */
  predicate WroteAll(j: T.Job, r: Sys) {
    && W.Payload(r.tx) == W.MemWords(j, 0, j.t.numBlocks * j.t.words)
    && r.tx == W.Frames(j, j.t.numBlocks) && r.bus.reqs == T.Requests(j, j.t.numBlocks)
  }

  /**
   * Memory to card through the whole: a write command whose wait flag is down again has sent exactly its memory
   * words, framed, with one request per block, unless it missed the end of its response.
   */
  lemma WriteEndToEnd(j: T.Job, o: E.Order, resp: seq<E.Octet>, z: Sys, es: seq<Env>)
    requires W.WriteJob(j) && E.Answers(o, resp) && WriteBegins(j, o, z) && LegalRun(j, o, resp, z, es)
    requires var r := Run(j, z, es); !L.Missed(o, r.x) && r.started && !r.x.e.p.waitWr
    ensures WroteAll(j, Run(j, z, es))
  {
    RunIsBoth(j, o, resp, z, es);
    WriteRun(j, o, resp, z, es);
    G.RunningIsLegal(j, DataSide(z), DataRun(j, z, es));
    W.EndToEnd(j, DataSide(z), DataRun(j, z, es));
  }

  /** And the card has answered every block of it and freed the line before anything followed the block. */
  lemma WriteIsAnswered(j: T.Job, o: E.Order, resp: seq<E.Octet>, z: Sys, es: seq<Env>, c: nat)
    requires W.WriteJob(j) && E.Answers(o, resp) && WriteBegins(j, o, z) && LegalRun(j, o, resp, z, es)
    requires var r := Run(j, z, es); !L.Missed(o, r.x) && r.started && !r.x.e.p.waitWr
    requires !j.busTestWr && 1 <= c <= j.t.numBlocks
    ensures A.WasAnswered(j, DataSide(z), DataRun(j, z, es), c)
  {
    RunIsBoth(j, o, resp, z, es);
    WriteRun(j, o, resp, z, es);
    G.RunningIsLegal(j, DataSide(z), DataRun(j, z, es));
    A.CardAnswersFirst(j, DataSide(z), DataRun(j, z, es), c);
  }

  /** Clocks of a run, once the command was cued, on which nobody outside kept the engine waiting. */
  ghost function CooperativeClocks(j: T.Job, z: Sys, es: seq<Env>): nat
    decreases |es|
  {
    if es == [] then 0
    else
      var m, e := Run(j, z, es[..|es| - 1]), es[|es| - 1];
      CooperativeClocks(j, z, es[..|es| - 1])
      + Bit(m.x.e.c.cs != Idle && L.Cued(z.x, CommandRun(j, z, es[..|es| - 1])) && m.x.e.p.waitWr
            && G.Cooperative(j, DataSide(m), DataEnv(m, e)))
  }

  lemma {:induction false} ClocksAgree(j: T.Job, o: E.Order, resp: seq<E.Octet>, z: Sys, es: seq<Env>)
    requires WriteBegins(j, o, z) && LegalRun(j, o, resp, z, es)
    ensures CooperativeClocks(j, z, es) == G.CooperativeClocks(j, DataSide(z), DataRun(j, z, es))
    decreases |es|
  {
    if es != [] {
      var before, m, e := es[..|es| - 1], Run(j, z, es[..|es| - 1]), es[|es| - 1];
      ClocksAgree(j, o, resp, z, before);
      RunIsBoth(j, o, resp, z, before);
      L.ValidIffCued(o, resp, z.x, CommandRun(j, z, before));
      T.RunOneMore(j, DataSide(z), DataRun(j, z, before), DataEnv(m, e));
    }
  }

  /**
   * However the stalls fall, a write of N blocks of L words that does not miss the end of its response has finished,
   * everything sent, once it was cued and nobody outside kept the engine waiting on N * (3L + 16) + 3 clocks since.
   */
  lemma WriteCompletes(j: T.Job, o: E.Order, resp: seq<E.Octet>, z: Sys, es: seq<Env>)
    requires W.WriteJob(j) && E.Answers(o, resp) && WriteBegins(j, o, z) && LegalRun(j, o, resp, z, es)
    requires !L.Missed(o, Run(j, z, es).x) && CooperativeClocks(j, z, es) >= G.Bound(j.t)
    ensures W.Finished(j, DataSide(Run(j, z, es)))
  {
    RunIsBoth(j, o, resp, z, es);
    WriteRun(j, o, resp, z, es);
    ClocksAgree(j, o, resp, z, es);
    G.Completes(j, DataSide(z), DataRun(j, z, es));
  }

  /** And two clocks later, the CMD line idle on the first, the engine is idle again. */
  lemma WriteEnds(j: T.Job, o: E.Order, resp: seq<E.Octet>, z: Sys, es: seq<Env>, i: Ins, i': Ins)
    requires E.Answers(o, resp) && WriteBegins(j, o, z) && LegalRun(j, o, resp, z, es)
    requires var r := Run(j, z, es); !L.Missed(o, r.x) && r.started && !r.x.e.p.waitWr && r.x.e.c.cs != Idle
    requires var x := Run(j, z, es).x; L.Quiet(i) && E.Legal(o, resp, x, i) && E.Legal(o, resp, E.Step(x, i), i')
    ensures Next(Next(Run(j, z, es).x.e, i), i').c.cs == Idle
  {
    var ins := CommandRun(j, z, es);
    RunIsBoth(j, o, resp, z, es);
    StartedIsWaited(j, o, resp, z, es);
    L.PunctualUnlessMissed(o, resp, z.x, ins);
    L.RunKeepsOnce(o, resp, z.x, ins);
    L.ValidIffCued(o, resp, z.x, ins);
    L.QuietEnds(Run(j, z, es).x.e, i, i');
  }

  // ---------------------------------------------------------------- reads

  predicate ReadBegins(j: T.Job, o: E.Order, z: Sys) {
    && Holds(j, o) && !j.isWrite && o.rspTyp != R0 && T.Rest(DataSide(z)) && R.Settled(j, z.bus) && L.Fresh(z.x)
  }

  /** The data SERDES delivers what it is asked for, throughout. */
  ghost predicate ServedRun(j: T.Job, z: Sys, es: seq<Env>)
    decreases |es|
  {
    es == [] ||
    (var m, e := Run(j, z, es[..|es| - 1]), es[|es| - 1];
     && ServedRun(j, z, es[..|es| - 1])
     && (m.x.e.c.cs != Idle ==> L.Serves(DataSide(m).line, PIns(m.x.e, Wired(m, e)))))
  }

  lemma {:induction false} EngineRun(j: T.Job, z: Sys, es: seq<Env>)
    requires H.EngineInv(z.x.e)
    ensures H.EngineInv(Run(j, z, es).x.e)
    decreases |es|
  {
    if es != [] {
      var m := Run(j, z, es[..|es| - 1]);
      EngineRun(j, z, es[..|es| - 1]);
      H.EngineKept(m.x.e, Wired(m, es[|es| - 1]));
    }
  }

  lemma ReadClock(j: T.Job, o: E.Order, resp: seq<E.Octet>, z: Sys, es: seq<Env>, e: Env)
    requires E.Answers(o, resp) && ReadBegins(j, o, z) && LegalRun(j, o, resp, z, es)
    requires L.ResponseFirst(o, z.x, CommandRun(j, z, es)) && !L.Missed(o, Run(j, z, es).x)
    requires var m := Run(j, z, es);
             Legal(j, o, resp, m, e) && m.x.e.c.cs != Idle && L.Serves(DataSide(m).line, PIns(m.x.e, Wired(m, e)))
    ensures var m := Run(j, z, es); var i := T.PIns(j, DataSide(m), DataEnv(m, e));
            R.Legal(DataSide(m).line, i) && !i.cmdIdle && (m.x.e.p.waitRd ==> i.cmdRsp || i.cmdWait)
  {
    var m := Run(j, z, es);
    RunIsBoth(j, o, resp, z, es);
    StartedIsWaited(j, o, resp, z, es);
    L.ReadIsLegal(o, resp, z.x, CommandRun(j, z, es), Wired(m, e), DataSide(m).line);
    EngineRun(j, z, es);
    SameInputs(j, o, m, e);
  }

  /** What reaches the data side of a read whose response ends first, and not missed, is what the data side asks. */
  lemma {:induction false} ReadRun(j: T.Job, o: E.Order, resp: seq<E.Octet>, z: Sys, es: seq<Env>)
    requires E.Answers(o, resp) && ReadBegins(j, o, z) && LegalRun(j, o, resp, z, es) && ServedRun(j, z, es)
    requires L.ResponseFirst(o, z.x, CommandRun(j, z, es)) && !L.Missed(o, Run(j, z, es).x)
    ensures V.RunningRun(j, DataSide(z), DataRun(j, z, es))
    decreases |es|
  {
    if es != [] {
      var before, m, e := es[..|es| - 1], Run(j, z, es[..|es| - 1]), es[|es| - 1];
      var ins := CommandRun(j, z, before);
      RunIsBoth(j, o, resp, z, before);
      if m.x.e.c.cs != Idle {
        NotMissedBefore(j, o, resp, z, es);
        L.RunOneMore(z.x, ins, Wired(m, e));
        ReadRun(j, o, resp, z, before);
        ReadClock(j, o, resp, z, before, e);
        V.RunningOneMore(j, DataSide(z), DataRun(j, z, before), DataEnv(m, e));
      } else {
        ReadRun(j, o, resp, z, before);
      }
    }
  }

  /** Card to memory through the whole, for one block. */
  lemma ReadEndToEnd(j: T.Job, o: E.Order, resp: seq<E.Octet>, z: Sys, es: seq<Env>)
    requires R.ReadJob(j) && j.t.numBlocks == 1 && E.Answers(o, resp) && ReadBegins(j, o, z)
    requires LegalRun(j, o, resp, z, es) && ServedRun(j, z, es) && L.ResponseFirst(o, z.x, CommandRun(j, z, es))
    requires var r := Run(j, z, es); !L.Missed(o, r.x) && r.started && !r.x.e.p.waitRd
    ensures var r := Run(j, z, es);
            && r.bus.reqs == T.Requests(j, j.t.numBlocks) && r.bus.beats == R.Bursts(j, j.t.numBlocks)
            && r.asked == R.AskFrames(j, j.t.numBlocks)
  {
    RunIsBoth(j, o, resp, z, es);
    ReadRun(j, o, resp, z, es);
    V.RunningIsLegal(j, DataSide(z), DataRun(j, z, es));
    R.OneBlockEndToEnd(j, DataSide(z), DataRun(j, z, es));
  }

  /** Clocks of a run's data phase on which nobody outside kept the engine waiting. */
  function ReadClocks(j: T.Job, z: Sys, es: seq<Env>): nat
    decreases |es|
  {
    if es == [] then 0
    else
      var m, e := Run(j, z, es[..|es| - 1]), es[|es| - 1];
      ReadClocks(j, z, es[..|es| - 1])
      + Bit(m.x.e.c.cs != Idle && m.x.e.p.waitRd && V.Cooperative(j, DataSide(m), DataEnv(m, e)))
  }

  lemma {:induction false} ReadClocksAgree(j: T.Job, o: E.Order, resp: seq<E.Octet>, z: Sys, es: seq<Env>)
    requires ReadBegins(j, o, z) && LegalRun(j, o, resp, z, es)
    ensures ReadClocks(j, z, es) == V.CooperativeClocks(j, DataSide(z), DataRun(j, z, es))
    decreases |es|
  {
    if es != [] {
      var before, m, e := es[..|es| - 1], Run(j, z, es[..|es| - 1]), es[|es| - 1];
      ReadClocksAgree(j, o, resp, z, before);
      RunIsBoth(j, o, resp, z, before);
      T.RunOneMore(j, DataSide(z), DataRun(j, z, before), DataEnv(m, e));
    }
  }

  /** A one-block read has finished correctly once 5L + 18 clocks of its data phase were free of stalls. */
  lemma ReadCompletes(j: T.Job, o: E.Order, resp: seq<E.Octet>, z: Sys, es: seq<Env>)
    requires R.ReadJob(j) && j.t.numBlocks == 1 && E.Answers(o, resp) && ReadBegins(j, o, z)
    requires LegalRun(j, o, resp, z, es) && ServedRun(j, z, es) && L.ResponseFirst(o, z.x, CommandRun(j, z, es))
    requires !L.Missed(o, Run(j, z, es).x) && ReadClocks(j, z, es) >= 5 * j.t.words + 18
    ensures R.Finished(j, DataSide(Run(j, z, es)))
  {
    RunIsBoth(j, o, resp, z, es);
    ReadRun(j, o, resp, z, es);
    ReadClocksAgree(j, o, resp, z, es);
    V.OneBlockCompletes(j, DataSide(z), DataRun(j, z, es));
  }
}
