/** One command on the CMD line: what is sent, what is clocked in, and how the response is put together. */
module Exchange {
  import opened Words
  import Arith
  import opened CommandProc

  type Octet = n: nat | n < 0x100

  /** The command in the registers, stable while it runs. */
  datatype Order = Order(idx: nat, arg: Word, rspTyp: nat)

  /** A transmit handshake on the CMD line. */
  datatype Beat = Send(bytes: seq<Octet>) | SendCrc

  /** The engine with a record: beats sent, lengths in bytes of the beats clocked in, response words delivered, and
      those of them the receiver did not count. */
  datatype Sys = Sys(e: Regs, sent: seq<Beat>, asked: seq<nat>, received: nat, unseen: nat)

  function Octets(w: Word, n: nat): (bs: seq<Octet>)
    requires n <= 4
    ensures |bs| == n && forall k :: 0 <= k < n ==> bs[k] == Byte(w, k)
  {
    seq(n, k requires 0 <= k < n => Byte(w, k))
  }

  function SentNext(s: Sys, i: Ins): seq<Beat> {
    if CmdHandshake(s.e.c, i.cmd) && s.e.c.wr1rd0 && s.e.c.lastByte < 4
    then s.sent + [if s.e.c.crcEn then SendCrc else Send(Octets(s.e.c.data, s.e.c.lastByte + 1))]
    else s.sent
  }

  function AskedNext(s: Sys, i: Ins): seq<nat> {
    if CmdHandshake(s.e.c, i.cmd) && !s.e.c.wr1rd0 && !s.e.c.dcEn then s.asked + [s.e.c.lastByte + 1] else s.asked
  }

  function Step(s: Sys, i: Ins): Sys {
    Sys(Next(s.e, i), SentNext(s, i), AskedNext(s, i), s.received + (if i.cmd.rxValid then 1 else 0),
        s.unseen + (if i.cmd.rxValid && s.e.r.cs == RspStart && !s.e.r.clkVldQ then 1 else 0))
  }

  /** The command's run ends when the engine is idle again. */
  function Run(s: Sys, ins: seq<Ins>): Sys
    decreases |ins|
  {
    if ins == [] then s
    else
      var m := Run(s, ins[..|ins| - 1]);
      if m.e.c.cs == Idle then m else Step(m, ins[|ins| - 1])
  }

  // ---------------------------------------------------------------- what the standard asks for

  /** Start bit, transmission bit and index; the argument, most significant byte first; the CRC slot. */
  function Token(o: Order): seq<Beat> {
    [Send([0x40 + o.idx % 0x40]),
     Send([Byte(o.arg, 3), Byte(o.arg, 2), Byte(o.arg, 1), Byte(o.arg, 0)]),
     SendCrc]
  }

  /** The beats a response is clocked in by, in bytes. */
  function Split(typ: nat): seq<nat> {
    if typ == R0 then [] else if typ == R2 then [1, 4, 4, 4, 3, 1] else [1, 4, 1]
  }

  function Sum(ns: seq<nat>): nat {
    if ns == [] then 0 else Sum(ns[..|ns| - 1]) + ns[|ns| - 1]
  }

  /** Where beat n of a response starts. */
  function Offset(n: nat): nat { if n == 0 then 0 else if n == 5 then 16 else 4 * n - 3 }

  lemma OffsetIsSum(typ: nat, n: nat)
    requires n < |Split(typ)|
    ensures Offset(n) == Sum(Split(typ)[..n])
  {
    if n > 0 {
      OffsetIsSum(typ, n - 1);
      assert Split(typ)[..n][..n - 1] == Split(typ)[..n - 1];
    }
  }

  /** A response is 48 bits, or 136 for R2, or nothing. */
  lemma SplitBits(typ: nat)
    ensures 8 * Sum(Split(typ)) == if typ == R0 then 0 else if typ == R2 then 136 else 48
  {
    if typ == R2 {
      var t := Split(typ);
      assert t[..5] == [1, 4, 4, 4, 3] && t[..5][..4] == [1, 4, 4, 4] && t[..5][..4][..3] == [1, 4, 4];
      assert [1, 4, 4][..2] == [1, 4] && [1, 4][..1] == [1] && [1][..0] == [];
      assert Sum([1]) == 1 && Sum([1, 4]) == 5 && Sum([1, 4, 4]) == 9 && Sum([1, 4, 4, 4]) == 13;
    } else if typ != R0 {
      assert [1, 4, 1][..2] == [1, 4] && [1, 4][..1] == [1] && [1][..0] == [];
      assert Sum([1]) == 1 && Sum([1, 4]) == 5;
    }
  }

  /** Four response bytes from k on, first one on top. */
  function BigEndian(resp: seq<Octet>, k: nat): Word
    requires k + 4 <= |resp|
  {
    FromBytes(resp[k + 3], resp[k + 2], resp[k + 1], resp[k])
  }

  // ---------------------------------------------------------------- the surroundings

  predicate Carries(o: Order, i: Ins) {
    i.csr.idx == o.idx && i.csr.arg == o.arg && i.csr.rspTyp == o.rspTyp
  }

  /** Word x brings beat n of the response, its first byte lowest. */
  predicate Delivers(o: Order, resp: seq<Octet>, n: nat, x: Word) {
    n < |Split(o.rspTyp)| && Offset(n) + Split(o.rspTyp)[n] <= |resp|
    && (forall k :: 0 <= k < Split(o.rspTyp)[n] && k < 4 ==> Byte(x, k) == resp[Offset(n) + k])
  }

  /** No restart, and a SERDES that delivers the asked beats one by one once the response has been waited for. */
  predicate Legal(o: Order, resp: seq<Octet>, s: Sys, i: Ins) {
    && Carries(o, i) && !s.e.k.cmdRestart
    && (i.cmd.rxValid ==> s.received < |s.asked| && s.e.r.cs != RspIdle &&
                          Delivers(o, resp, s.received, i.cmd.rxData))
  }

  ghost predicate LegalRun(o: Order, resp: seq<Octet>, s: Sys, ins: seq<Ins>)
    decreases |ins|
  {
    ins == [] ||
    (&& LegalRun(o, resp, s, ins[..|ins| - 1])
     && Legal(o, resp, Run(s, ins[..|ins| - 1]), ins[|ins| - 1]))
  }

  // ---------------------------------------------------------------- the invariant

  function Preset(typ: nat): nat { if typ == R0 then 0 else if typ == R2 then 5 else 2 }

  predicate LineInv(o: Order, s: Sys) {
    var c, split := s.e.c, Split(o.rspTyp);
    match c.cs
    case Start =>
      && s.sent == [] && s.asked == [] && !c.dcEn && !c.crcEn && c.lastByte == 0
      && (c.valid ==> c.wr1rd0 && c.data as int == 0x40 + o.idx % 0x40)
    case Arg =>
      && s.sent == Token(o)[..1] && s.asked == [] && c.valid && c.wr1rd0 && !c.dcEn && !c.crcEn
      && c.lastByte == 3 && c.data == Swap(o.arg) && c.cntr % 4 == 0
    case Crc =>
      && s.sent == Token(o)[..2] && s.asked == [] && c.valid && c.wr1rd0 && !c.dcEn && c.crcEn && c.lastByte == 0
    case Dummy =>
      s.sent == Token(o) && s.asked == [] && c.valid && !c.wr1rd0 && c.dcEn && c.cntr == Preset(o.rspTyp)
    case Rsp =>
      && s.sent == Token(o) && c.valid && !c.wr1rd0 && o.rspTyp != R0
      && (if c.dcEn then s.asked == split && c.cntr == 0
          else c.cntr <= Preset(o.rspTyp) && s.asked == split[..Preset(o.rspTyp) - c.cntr] &&
               c.lastByte + 1 == split[Preset(o.rspTyp) - c.cntr])
    case Wait => s.sent == Token(o) && s.asked == split && !c.wr1rd0 && c.dcEn
    case Idle => s.sent == Token(o) && s.asked == split
    case Boot => false
  }

  /** The receiving machine's own count of the same beats: it misses a word that finds it waiting for the response
      while it has not seen the CMD clock run. */
  predicate CountInv(o: Order, s: Sys) {
    var r, n, u, p := s.e.r, s.received, s.unseen, Preset(o.rspTyp);
    && n <= |s.asked| <= |Split(o.rspTyp)| && (r.cmdDone ==> s.e.c.cs != Dummy)
    && match r.cs
       case RspIdle => u == 0 && (n == 0 || n == p + 1)
       case RspStart => n == u || (u == 0 && n == p + 1)
       case RspArg => 1 <= n - u < p && r.cntr == p - (n - u)
       case RspCrc => n == p + u && p > 0
       case RspWait => u == 0 && n == p + 1
  }

  /** A response of the length the command calls for. */
  predicate Answers(o: Order, resp: seq<Octet>) {
    |resp| == if o.rspTyp == R0 then 0 else if o.rspTyp == R2 then 17 else 6
  }

  /** The response registers hold the first n beats in their places. */
  predicate Holds(o: Order, resp: seq<Octet>, b: Capture, n: nat)
    requires Answers(o, resp)
  {
    && n <= |Split(o.rspTyp)|
    && (n >= 1 ==> b.b0 == resp[0] % 0x40)
    && (n >= 2 ==> b.d0 == BigEndian(resp, 1))
    && (o.rspTyp == R2 ==>
          && (n >= 3 ==> b.d1 == BigEndian(resp, 5))
          && (n >= 4 ==> b.d2 == BigEndian(resp, 9))
          && (n >= 5 ==> b.d3 as int / 0x100 == BigEndian(resp, 13) as int / 0x100)
          && (n >= 6 ==> b.d3 == BigEndian(resp, 13)))
  }

  predicate CaptureInv(o: Order, resp: seq<Octet>, s: Sys)
    requires Answers(o, resp)
  {
    && Holds(o, resp, s.e.s, s.received)
    && (s.e.r.cs == RspIdle || s.received == s.e.s.ptr || s.received == |Split(o.rspTyp)|)
    && (s.received > 0 ==> s.e.c.cs == Rsp || s.e.c.cs == CmdState.Wait || s.e.c.cs == Idle)
  }

  lemma BytesBack(b0: Octet, b1: Octet, b2: Octet, b3: Octet)
    ensures var w := FromBytes(b0, b1, b2, b3);
            Byte(w, 0) == b0 && Byte(w, 1) == b1 && Byte(w, 2) == b2 && Byte(w, 3) == b3
  {
    var w := FromBytes(b0, b1, b2, b3) as int;
    assert w / 0x100 == b1 + 0x100 * b2 + 0x1_0000 * b3;
    assert w / 0x1_0000 == b2 + 0x100 * b3;
    assert w / 0x100_0000 == b3;
  }

  lemma SwapIsBigEndian(x: Word, resp: seq<Octet>, k: nat)
    requires k + 4 <= |resp| && forall j :: 0 <= j < 4 ==> Byte(x, j) == resp[k + j]
    ensures Swap(x) == BigEndian(resp, k)
  {
    assert Byte(x, 0) == resp[k + 0] && Byte(x, 1) == resp[k + 1];
    assert Byte(x, 2) == resp[k + 2] && Byte(x, 3) == resp[k + 3];
  }

  lemma SwappedOctets(w: Word)
    ensures Octets(Swap(w), 4) == [Byte(w, 3), Byte(w, 2), Byte(w, 1), Byte(w, 0)]
  {
    BytesBack(Byte(w, 3), Byte(w, 2), Byte(w, 1), Byte(w, 0));
  }

  lemma LowOctet(w: Word)
    requires w < 0x100
    ensures Octets(w, 1) == [w as int]
  {
    assert Byte(w, 0) == w as int;
  }

  lemma StartHeld(o: Order, resp: seq<Octet>, s: Sys, i: Ins)
    requires LineInv(o, s) && Legal(o, resp, s, i) && s.e.c.cs == Start && !CmdHandshake(s.e.c, i.cmd)
    ensures LineInv(o, Step(s, i))
  {
  }

  lemma LowBitsCleared(n: nat)
    ensures (n - n % 4) % 4 == 0
  {
  }

  /** The registers after the token's first beat. */
  lemma FirstBeat(e: Regs, i: Ins)
    requires e.c.cs == Start && CmdHandshake(e.c, i.cmd) && !e.k.cmdRestart
    ensures var c := Next(e, i).c;
            && c.cs == Arg && c.valid && c.wr1rd0 && c.dcEn == e.c.dcEn && c.crcEn == e.c.crcEn
            && c.lastByte == 3 && c.data == Swap(i.csr.arg) && c.cntr == e.c.cntr - e.c.cntr % 4
  {
  }

  lemma StartSent(o: Order, resp: seq<Octet>, s: Sys, i: Ins)
    requires LineInv(o, s) && Legal(o, resp, s, i) && s.e.c.cs == Start && CmdHandshake(s.e.c, i.cmd)
    ensures LineInv(o, Step(s, i))
  {
    FirstBeat(s.e, i);
    LowBitsCleared(s.e.c.cntr);
    LowOctet(s.e.c.data);
    assert Token(o)[..1] == [Send([0x40 + o.idx % 0x40])];
  }

  lemma SendKept(o: Order, resp: seq<Octet>, s: Sys, i: Ins)
    requires LineInv(o, s) && CountInv(o, s) && Legal(o, resp, s, i) && (s.e.c.cs == Arg || s.e.c.cs == Crc)
    ensures LineInv(o, Step(s, i))
  {
    SwappedOctets(o.arg);
  }

  lemma DummyKept(o: Order, resp: seq<Octet>, s: Sys, i: Ins)
    requires LineInv(o, s) && CountInv(o, s) && Legal(o, resp, s, i)
    requires s.e.c.cs == Dummy || s.e.c.cs == CmdState.Wait
    ensures LineInv(o, Step(s, i))
  {
  }

  /** What one clock of the response phase does to the registers and the record. */
  predicate Asks(s: Sys, ready: bool, typ: nat, z: Sys) {
    var b, c := s.e.c, z.e.c;
    && c.cs == (if ready && s.e.r.cs == RspCrc then CmdState.Wait else Rsp)
    && c.valid && !c.wr1rd0 && c.dcEn == (if ready then b.cntr == 0 else b.dcEn)
    && c.cntr == (if ready && b.cntr > 0 then b.cntr - 1 else b.cntr)
    && c.lastByte == (if !ready then b.lastByte else if b.cntr < 2 then 0
                      else if typ == R2 && b.cntr == 2 then 2 else 3)
    && z.sent == s.sent
    && z.asked == (if ready && !b.dcEn then s.asked + [b.lastByte + 1] else s.asked)
  }

  lemma StepAsks(s: Sys, i: Ins)
    requires s.e.c.cs == Rsp && s.e.c.valid && !s.e.c.wr1rd0 && !s.e.k.cmdRestart
    ensures Asks(s, i.cmd.ready, i.csr.rspTyp, Step(s, i))
  {
  }

  lemma AskedSplit(o: Order, s: Sys, ready: bool, z: Sys)
    requires LineInv(o, s) && CountInv(o, s) && s.e.c.cs == Rsp && Asks(s, ready, o.rspTyp, z)
    ensures LineInv(o, z)
  {
  }

  lemma AskKept(o: Order, resp: seq<Octet>, s: Sys, i: Ins)
    requires LineInv(o, s) && CountInv(o, s) && Legal(o, resp, s, i) && s.e.c.cs == Rsp
    ensures LineInv(o, Step(s, i))
  {
    StepAsks(s, i);
    AskedSplit(o, s, i.cmd.ready, Step(s, i));
  }

  lemma CountKept(o: Order, resp: seq<Octet>, s: Sys, i: Ins)
    requires LineInv(o, s) && CountInv(o, s) && Legal(o, resp, s, i) && s.e.c.cs != Idle
    ensures CountInv(o, Step(s, i))
  {
  }

  lemma HighLow(w: Word, b: Octet)
    ensures HighPart(w) + b < 0x1_0000_0000
    ensures (HighPart(w) + b) / 0x100 == w as int / 0x100 && (HighPart(w) + b) % 0x100 == b
  {
  }

  lemma UpperBytes(b0: Octet, b1: Octet, b2: Octet, b3: Octet)
    ensures var w := FromBytes(b0, b1, b2, b3) as int;
            w / 0x100 == b1 + 0x100 * b2 + 0x1_0000 * b3 && w % 0x100 == b0
  {
  }

  /** The last four bytes of a long response come in two beats: first the upper three. */
  lemma StoreUpper(o: Order, resp: seq<Octet>, b: Capture, x: Word)
    requires Answers(o, resp) && o.rspTyp == R2 && b.ptr == 4 && Delivers(o, resp, 4, x)
    ensures Store(b, x).d3 as int / 0x100 == BigEndian(resp, 13) as int / 0x100
  {
    assert Byte(x, 0) == resp[13 + 0] && Byte(x, 1) == resp[13 + 1] && Byte(x, 2) == resp[13 + 2];
    UpperBytes(Byte(x, 3), Byte(x, 2), Byte(x, 1), Byte(x, 0));
    UpperBytes(resp[16], resp[15], resp[14], resp[13]);
    HighLow(Swap(x), Byte(b.d3, 0));
  }

  /** Then the lowest. */
  lemma StoreLowest(o: Order, resp: seq<Octet>, b: Capture, x: Word)
    requires Answers(o, resp) && o.rspTyp == R2 && b.ptr == 5 && Delivers(o, resp, 5, x)
    requires b.d3 as int / 0x100 == BigEndian(resp, 13) as int / 0x100
    ensures Store(b, x).d3 == BigEndian(resp, 13)
  {
    assert Byte(x, 0) == resp[16 + 0];
    UpperBytes(resp[16], resp[15], resp[14], resp[13]);
    HighLow(b.d3, Byte(x, 0));
  }

  /** A beat of four bytes fills the register its number selects. */
  lemma StoreWord(o: Order, resp: seq<Octet>, b: Capture, n: nat, x: Word)
    requires Answers(o, resp) && Holds(o, resp, b, n) && b.ptr == n && Delivers(o, resp, n, x)
    requires 1 <= n <= 3 && Split(o.rspTyp)[n] == 4
    ensures Holds(o, resp, Store(b, x), n + 1) && Store(b, x).ptr == n + 1
  {
    SwapIsBigEndian(x, resp, Offset(n));
  }

  /** The end of a long response. */
  lemma StoreTail(o: Order, resp: seq<Octet>, b: Capture, n: nat, x: Word)
    requires Answers(o, resp) && Holds(o, resp, b, n) && b.ptr == n && Delivers(o, resp, n, x) && n >= 4
    ensures Holds(o, resp, Store(b, x), n + 1) && Store(b, x).ptr == n + 1
  {
    if n == 4 { StoreUpper(o, resp, b, x); } else { StoreLowest(o, resp, b, x); }
  }

  lemma SixOfEight(x: Word)
    ensures x as int % 0x40 == Byte(x, 0) % 0x40
  {
    var q, b := x as int / 0x100, Byte(x, 0);
    assert b == b / 0x40 * 0x40 + b % 0x40;
    Arith.DivModIs(x as int, 4 * q + b / 0x40, b % 0x40, 0x40);
  }

  /** The first byte, or the last of a short response, which is not kept. */
  lemma StoreByte(o: Order, resp: seq<Octet>, b: Capture, n: nat, x: Word)
    requires Answers(o, resp) && Holds(o, resp, b, n) && b.ptr == n && Delivers(o, resp, n, x)
    requires n == 0 || (n == 2 && o.rspTyp != R2)
    ensures Holds(o, resp, Store(b, x), n + 1) && Store(b, x).ptr == n + 1
  {
    SixOfEight(x);
    assert Byte(x, 0) == resp[Offset(n) + 0];
  }

  /** Storing beat n puts its bytes where the response has them. */
  lemma StoreKept(o: Order, resp: seq<Octet>, b: Capture, n: nat, x: Word)
    requires Answers(o, resp) && Holds(o, resp, b, n) && b.ptr == n && Delivers(o, resp, n, x)
    ensures Holds(o, resp, Store(b, x), n + 1) && Store(b, x).ptr == n + 1
  {
    if n >= 4 {
      StoreTail(o, resp, b, n, x);
    } else if n == 0 || (n == 2 && o.rspTyp != R2) {
      StoreByte(o, resp, b, n, x);
    } else {
      StoreWord(o, resp, b, n, x);
    }
  }

  lemma CaptureKept(o: Order, resp: seq<Octet>, s: Sys, i: Ins)
    requires Answers(o, resp) && LineInv(o, s) && CountInv(o, s) && CaptureInv(o, resp, s)
    requires Legal(o, resp, s, i) && s.e.c.cs != Idle
    ensures CaptureInv(o, resp, Step(s, i))
  {
    if i.cmd.rxValid { StoreKept(o, resp, s.e.s, s.received, i.cmd.rxData); }
  }

  // ---------------------------------------------------------------- whole commands

  /** The engine has just left idle for a new command. */
  predicate Begun(s: Sys) {
    && s.e.c.cs == Start && !s.e.c.valid && !s.e.c.dcEn && !s.e.c.crcEn && s.e.c.lastByte == 0
    && s.e.r.cs == RspIdle && !s.e.r.cmdDone && s.sent == [] && s.asked == [] && s.received == 0 && s.unseen == 0
  }

  predicate Inv(o: Order, resp: seq<Octet>, s: Sys)
    requires Answers(o, resp)
  {
    LineInv(o, s) && CountInv(o, s) && CaptureInv(o, resp, s)
  }

  lemma StepKeepsInv(o: Order, resp: seq<Octet>, s: Sys, i: Ins)
    requires Answers(o, resp) && Inv(o, resp, s) && Legal(o, resp, s, i) && s.e.c.cs != Idle
    ensures Inv(o, resp, Step(s, i))
  {
    CountKept(o, resp, s, i);
    CaptureKept(o, resp, s, i);
    match s.e.c.cs
    case Start => if CmdHandshake(s.e.c, i.cmd) { StartSent(o, resp, s, i); } else { StartHeld(o, resp, s, i); }
    case Arg => SendKept(o, resp, s, i);
    case Crc => SendKept(o, resp, s, i);
    case Rsp => AskKept(o, resp, s, i);
    case _ => DummyKept(o, resp, s, i);
  }

  lemma {:induction false} RunKeepsInv(o: Order, resp: seq<Octet>, s: Sys, ins: seq<Ins>)
    requires Answers(o, resp) && Begun(s) && LegalRun(o, resp, s, ins)
    ensures Inv(o, resp, Run(s, ins))
    decreases |ins|
  {
    if ins != [] {
      var m := Run(s, ins[..|ins| - 1]);
      RunKeepsInv(o, resp, s, ins[..|ins| - 1]);
      if m.e.c.cs != Idle { StepKeepsInv(o, resp, m, ins[|ins| - 1]); }
    }
  }

  predicate Framed(asked: seq<nat>, typ: nat) {
    asked == Split(typ) && 8 * Sum(asked) == if typ == R0 then 0 else if typ == R2 then 136 else 48
  }

  /**
   * A finished command has sent exactly its token and has clocked in exactly 48 (136, no) response bits. The receiver
   * counts for itself: it is past the response only when all its beats have come and none went uncounted.
   */
  lemma CommandFramed(o: Order, resp: seq<Octet>, s: Sys, ins: seq<Ins>)
    requires Answers(o, resp) && Begun(s) && LegalRun(o, resp, s, ins)
    ensures var z := Run(s, ins);
            && (z.e.c.cs == Idle || z.e.c.cs == CmdState.Wait ==> z.sent == Token(o) && Framed(z.asked, o.rspTyp))
            && (z.e.r.cs == RspCrc ==> z.received + 1 == |Split(o.rspTyp)| + z.unseen)
            && (z.e.r.cs == RspWait ==> z.received == |Split(o.rspTyp)| && z.unseen == 0)
  {
    RunKeepsInv(o, resp, s, ins);
    SplitBits(o.rspTyp);
  }

  /** What the beats after the token look like on the CMD line: after it a gap of two clocks; then the response beats,
      the last of them and no other checked as a CRC; then gaps of eight clocks. None of them drives a bit. */
  predicate BeatInv(o: Order, s: Sys) {
    var c := s.e.c;
    match c.cs
    case Dummy => !c.wr1rd0 && c.dcEn && c.dcNum == 1 && !c.crcEn && c.data == ALL_ONES
    case Rsp =>
      && !c.wr1rd0 && c.data == ALL_ONES
      && (if c.dcEn then c.dcNum == 7 && !c.crcEn else c.crcEn == (|s.asked| + 1 == |Split(o.rspTyp)|))
    case Wait => !c.wr1rd0 && c.dcEn && c.dcNum == 7 && !c.crcEn && c.data == ALL_ONES
    case _ => true
  }

  lemma BeatKept(o: Order, resp: seq<Octet>, s: Sys, i: Ins)
    requires LineInv(o, s) && CountInv(o, s) && BeatInv(o, s) && Legal(o, resp, s, i) && s.e.c.cs != Idle
    ensures BeatInv(o, Step(s, i))
  {
  }

  lemma {:induction false} RunKeepsBeats(o: Order, resp: seq<Octet>, s: Sys, ins: seq<Ins>)
    requires Answers(o, resp) && Begun(s) && LegalRun(o, resp, s, ins)
    ensures BeatInv(o, Run(s, ins))
    decreases |ins|
  {
    if ins != [] {
      var m := Run(s, ins[..|ins| - 1]);
      RunKeepsBeats(o, resp, s, ins[..|ins| - 1]);
      RunKeepsInv(o, resp, s, ins[..|ins| - 1]);
      if m.e.c.cs != Idle { BeatKept(o, resp, m, ins[|ins| - 1]); }
    }
  }

  /** Nothing moves on the CMD line on this clock, no gap is being clocked out, and no data is waited for. */
  predicate Quiet(e: Regs, i: Ins) {
    e.c.cs == CmdState.Wait && !i.cmd.clkVld && !i.cmd.dcEn && !e.p.waitWr && !e.p.waitRd
  }

  /** There was such a clock in the run. */
  ghost predicate WasQuiet(s: Sys, ins: seq<Ins>)
    decreases |ins|
  {
    ins != [] && (WasQuiet(s, ins[..|ins| - 1]) || Quiet(Run(s, ins[..|ins| - 1]).e, ins[|ins| - 1]))
  }

  /** A command ends only after a quiet clock. */
  lemma {:induction false} EndsQuietly(o: Order, resp: seq<Octet>, s: Sys, ins: seq<Ins>)
    requires Begun(s) && !s.e.c.detDone && LegalRun(o, resp, s, ins)
    ensures Run(s, ins).e.c.cs == Idle || Run(s, ins).e.c.detDone ==> WasQuiet(s, ins)
    decreases |ins|
  {
    if ins != [] { EndsQuietly(o, resp, s, ins[..|ins| - 1]); }
  }

  /** Gaps taken on the CMD line once the command waits for its end and no data is waited for. */
  function LateGaps(s: Sys, ins: seq<Ins>): nat
    decreases |ins|
  {
    if ins == [] then 0
    else
      var m, i := Run(s, ins[..|ins| - 1]).e, ins[|ins| - 1];
      LateGaps(s, ins[..|ins| - 1])
      + Bit(m.c.cs == CmdState.Wait && !m.p.waitWr && !m.p.waitRd && CmdHandshake(m.c, i.cmd))
  }

  /** There is at most one: after it nothing more is handed over, so that the clock can stop. */
  lemma {:induction false} OneLateGap(o: Order, resp: seq<Octet>, s: Sys, ins: seq<Ins>)
    requires Begun(s) && LegalRun(o, resp, s, ins)
    ensures LateGaps(s, ins) <= 1
    ensures LateGaps(s, ins) == 1 ==> var c := Run(s, ins).e.c;
                                      (c.cs == CmdState.Wait && !c.valid) || c.cs == Idle
    decreases |ins|
  {
    if ins != [] { OneLateGap(o, resp, s, ins[..|ins| - 1]); }
  }

  /** The clock that brings the last word ends the receiver's wait if and only if it has counted every word. */
  lemma SeenIffCounted(o: Order, resp: seq<Octet>, s: Sys, ins: seq<Ins>, i: Ins)
    requires Answers(o, resp) && Begun(s) && LegalRun(o, resp, s, ins) && o.rspTyp != R0
    requires var m := Run(s, ins);
             Legal(o, resp, m, i) && m.e.c.cs != Idle && i.cmd.rxValid && m.received + 1 == |Split(o.rspTyp)|
    ensures Step(Run(s, ins), i).e.r.cs == RspWait <==> Step(Run(s, ins), i).unseen == 0
  {
    RunKeepsInv(o, resp, s, ins);
  }

  /** The response read back from the registers is the response the card sent, whatever the stalls. */
  lemma ResponseRoundTrip(o: Order, resp: seq<Octet>, s: Sys, ins: seq<Ins>)
    requires Answers(o, resp) && Begun(s) && LegalRun(o, resp, s, ins) && o.rspTyp != R0
    requires Run(s, ins).received == |Split(o.rspTyp)|
    ensures var b := Run(s, ins).e.s;
            && b.b0 == resp[0] % 0x40 && b.d0 == BigEndian(resp, 1)
            && (o.rspTyp == R2 ==>
                  b.d1 == BigEndian(resp, 5) && b.d2 == BigEndian(resp, 9) && b.d3 == BigEndian(resp, 13))
  {
    RunKeepsInv(o, resp, s, ins);
  }
}
