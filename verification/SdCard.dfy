/** SD card initialisation: the commands it issues, whatever the controller answers. */
module SdCard {
  import opened Words
  import opened Registers
  import opened Driver
  import F = Fields

  const IF_COND: Word := 0x1AA
  const OP_COND: Word := 0x4030_0000
  const RETRY_MAX := 1000

  /** The status read after a command showed no error. */
  predicate Clean(c: Cmd) { c.Cmd? && c.sts < 2 }

  function HighHalf(w: Word): Word { w / 0x1_0000 * 0x1_0000 }

  /** OCR[30] */
  function HighCapacity(ocr: Word): nat { ocr as nat / 0x4000_0000 % 2 }

  /** What is read from and put into card registers, by the bits the SD standard gives them: power-up status and
      capacity in OCR[31:30], the card's address in the upper half; check pattern and voltage in CMD8's argument, host
      capacity support and the 3.2 to 3.4 volt window in CMD41's. */
  lemma CardFields(w: Word)
    ensures IsReady(w) <==> F.Get(w as nat, F.Field(31, 1)) == 1
    ensures HighCapacity(w) == F.Get(w as nat, F.Field(30, 1))
    ensures F.Get(HighHalf(w) as nat, F.Field(16, 16)) == F.Get(w as nat, F.Field(16, 16))
    ensures F.Get(HighHalf(w) as nat, F.Field(0, 16)) == 0
    ensures F.Get(IF_COND as nat, F.Field(0, 8)) == 0xAA && F.Get(IF_COND as nat, F.Field(8, 4)) == 1
    ensures F.Get(OP_COND as nat, F.Field(30, 1)) == 1 && F.Get(OP_COND as nat, F.Field(15, 9)) == 0x60
  {
    assert Pow2(0) == 1 && Pow2(1) == 2 && Pow2(4) == 16 && Pow2(8) == 0x100;
    F.PowAdd(8, 1);
    F.PowAdd(8, 7);
    F.PowAdd(15, 15);
    assert Pow2(16) == 2 * Pow2(15);
    assert Pow2(31) == 2 * Pow2(30);
  }

  /** How far a sequence of commands has come through initialisation: n rounds of CMD55 and CMD41, m tries of
      CMD2, and the operating conditions that ended the rounds. */
  datatype Stage =
    | Begin | Idled | Asked | App(n: nat) | OpCond(n: nat)
    | Cid(n: nat, m: nat, ocr: Word) | Addressed(n: nat, m: nat, ocr: Word) | Selected(n: nat, m: nat, ocr: Word)
    | Broken

  /** The stage after one more command, given the command before it with its response and status. */
  function Advance(s: Stage, prev: Cmd, c: Cmd): Stage {
    match s
    case Begin => if Is(c, 0, 0) then Idled else Broken
    case Idled => if Is(c, 8, IF_COND) then Asked else Broken
    case Asked =>
      if Is(c, 55, 0) && (Clean(prev) ==> prev.resp as int % 0x200 == IF_COND as int) then App(0) else Broken
    case App(n) => if Is(c, 41, OP_COND) && Clean(prev) && n < RETRY_MAX then OpCond(n + 1) else Broken
    case OpCond(n) =>
      if Is(c, 55, 0) && Clean(prev) && !IsReady(prev.resp) && n < RETRY_MAX then App(n)
      else if Is(c, 2, 0) && Clean(prev) && IsReady(prev.resp) then Cid(n, 1, prev.resp)
      else Broken
    case Cid(n, m, ocr) =>
      if Is(c, 2, 0) && prev.Cmd? && TimedOut(prev.sts) then Cid(n, m + 1, ocr)
      else if Is(c, 3, 0) && Clean(prev) then Addressed(n, m, ocr)
      else Broken
    case Addressed(n, m, ocr) =>
      if prev.Cmd? && Is(c, 7, HighHalf(prev.resp)) && Clean(prev) then Selected(n, m, ocr) else Broken
    case _ => Broken
  }

  function Last(t: seq<Cmd>): Cmd { if t == [] then NoCmd else t[|t| - 1] }

  function StageOf(t: seq<Cmd>): Stage {
    if t == [] then Begin else Advance(StageOf(t[..|t| - 1]), Last(t[..|t| - 1]), t[|t| - 1])
  }

  // ---------------------------------------------------------------- the stages as a pattern

  function Codes(t: seq<Cmd>): seq<nat> {
    if t == [] then [] else Codes(t[..|t| - 1]) + [if Last(t).Cmd? then Last(t).code else 64]
  }

  function Rounds(n: nat): seq<nat> { if n == 0 then [] else Rounds(n - 1) + [55] + [41] }

  function Cids(m: nat): seq<nat> { if m == 0 then [] else Cids(m - 1) + [2] }

  /** CMD0 CMD8 (CMD55 CMD41)^n CMD2^m CMD3 CMD7, as far as the stage has come. */
  function Pattern(s: Stage): seq<nat> {
    match s
    case Begin => []
    case Idled => [0]
    case Asked => [0, 8]
    case App(n) => [0, 8] + Rounds(n) + [55]
    case OpCond(n) => [0, 8] + Rounds(n)
    case Cid(n, m, _) => [0, 8] + Rounds(n) + Cids(m)
    case Addressed(n, m, _) => [0, 8] + Rounds(n) + Cids(m) + [3]
    case Selected(n, m, _) => [0, 8] + Rounds(n) + Cids(m) + [3] + [7]
    case Broken => []
  }

  function RoundsOf(s: Stage): nat {
    match s
    case App(n) => n
    case OpCond(n) => n
    case Cid(n, _, _) => n
    case Addressed(n, _, _) => n
    case Selected(n, _, _) => n
    case _ => 0
  }

  lemma RoundAdded(n: nat)
    ensures [0, 8] + Rounds(n + 1) == [0, 8] + Rounds(n) + [55] + [41]
  {
  }

  lemma CidAdded(n: nat, m: nat)
    ensures [0, 8] + Rounds(n) + Cids(m + 1) == [0, 8] + Rounds(n) + Cids(m) + [2]
  {
  }

  /** Each step of the stages appends its command to the pattern. */
  lemma PatternStep(s: Stage, prev: Cmd, c: Cmd)
    requires Advance(s, prev, c) != Broken
    ensures c.Cmd? && Pattern(Advance(s, prev, c)) == Pattern(s) + [c.code]
    ensures RoundsOf(s) <= RETRY_MAX ==> RoundsOf(Advance(s, prev, c)) <= RETRY_MAX
  {
    match s
    case Asked => assert [0, 8] + Rounds(0) == [0, 8];
    case App(n) => RoundAdded(n);
    case OpCond(n) =>
      if c.code == 2 {
        CidAdded(n, 0);
        assert [0, 8] + Rounds(n) + Cids(0) == [0, 8] + Rounds(n);
      }
    case Cid(n, m, _) => if c.code == 2 { CidAdded(n, m); }
    case _ =>
  }

  /** A sequence of commands at a stage is exactly that stage's part of the pattern, with at most 1000 rounds. */
  lemma {:induction false} StageIsPattern(t: seq<Cmd>)
    requires StageOf(t) != Broken
    ensures Codes(t) == Pattern(StageOf(t)) && RoundsOf(StageOf(t)) <= RETRY_MAX
  {
    if t != [] {
      var before := t[..|t| - 1];
      assert StageOf(before) != Broken;
      StageIsPattern(before);
      PatternStep(StageOf(before), Last(before), t[|t| - 1]);
    }
  }

  lemma {:induction false} StageFacts(t: seq<Cmd>)
    ensures var s := StageOf(t);
            && (s.OpCond? ==> s.n >= 1)
            && (s.Cid? || s.Addressed? || s.Selected? ==> s.n >= 1 && s.m >= 1 && IsReady(s.ocr))
  {
    if t != [] { StageFacts(t[..|t| - 1]); }
  }

  // ---------------------------------------------------------------- the stage as the driver's view shows it

  /** The commands since the first `b`, of which the last may still be amended, have come to this stage. */
  predicate At(v: View, b: nat, s: Stage) {
    && b <= |v.past| && v.cur.Cmd?
    && Advance(StageOf(v.past[b..]), Last(v.past[b..]), v.cur) == s
  }

  lemma AtMeansStage(v: View, b: nat, s: Stage)
    requires At(v, b, s)
    ensures StageOf(Issued(v)[b..]) == s
  {
    assert Issued(v)[b..][..|v.past| - b] == v.past[b..];
  }

  lemma StageMeansAt(v: View, b: nat, s: Stage)
    requires b <= |v.past| && v.cur.Cmd? && StageOf(Issued(v)[b..|Issued(v)|]) == s
    ensures At(v, b, s)
  {
    assert Issued(v)[b..|Issued(v)|][..|v.past| - b] == v.past[b..];
  }

  lemma Push(v: View, v': View, b: nat, s: Stage)
    requires At(v, b, s) && v'.past == Issued(v) && v'.cur.Cmd?
    ensures At(v', b, Advance(s, v.cur, v'.cur))
  {
    AtMeansStage(v, b, s);
  }

  lemma First(v: View, v': View)
    requires v'.past == Issued(v) && v'.cur.Cmd?
    ensures At(v', |Issued(v)|, Advance(Begin, NoCmd, v'.cur))
  {
    assert v'.past[|Issued(v)|..] == [];
  }

  /** Every retry of CMD2 but the last had timed out. */
  lemma {:induction false} PushCids(v: View, past: seq<Cmd>, b: nat, n: nat, k: nat)
    requires At(v, b, OpCond(n)) && Clean(v.cur) && IsReady(v.cur.resp)
    requires |Issued(v)| < k <= |past| && Issued(v) <= past
    requires forall i :: |Issued(v)| <= i < |past| ==> Is(past[i], 2, 0) && (i < k - 1 ==> TimedOut(past[i].sts))
    ensures b <= k && StageOf(past[b..k]) == Cid(n, k - |Issued(v)|, v.cur.resp)
    decreases k
  {
    AtMeansStage(v, b, OpCond(n));
    assert past[b..k][..k - 1 - b] == past[b..k - 1];
    assert past[b..k][|past[b..k]| - 1] == past[k - 1];
    if k == |Issued(v)| + 1 {
      assert past[b..k - 1] == Issued(v)[b..];
    } else {
      PushCids(v, past, b, n, k - 1);
      assert Last(past[b..k - 1]) == past[k - 2];
    }
  }

  lemma CidsDone(v: View, v': View, b: nat, n: nat)
    requires At(v, b, OpCond(n)) && Clean(v.cur) && IsReady(v.cur.resp)
    requires Issued(v) <= v'.past && OnlySince(v', |Issued(v)|, 2, 0)
    requires forall i :: |Issued(v)| <= i < |v'.past| ==> TimedOut(v'.past[i].sts)
    ensures At(v', b, Cid(n, |v'.past| + 1 - |Issued(v)|, v.cur.resp))
  {
    var all := Issued(v');
    PushCids(v, all, b, n, |all|);
    StageMeansAt(v', b, Cid(n, |v'.past| + 1 - |Issued(v)|, v.cur.resp));
  }

  // ---------------------------------------------------------------- the methods

  /** Commands were added and none before them touched. */
  predicate Grown(v: View, v': View) { Issued(v) <= v'.past }

  lemma GrownTwice(u: View, v: View, w: View)
    requires Grown(u, v) && Grown(v, w)
    ensures Grown(u, w)
  {
  }

  /** sd_send_cmd */
  method SendCmd(d: Driver, code: nat, arg: Word) returns (r: Status)
    requires d.Ready() && code < 0x40
    modifies d`trace, d`view, d`script
    ensures d.Ready() && d.view.past == Issued(old(d.view)) && Is(d.view.cur, code, arg)
    ensures r == Success <==> Clean(d.view.cur)
  {
    d.Write(IntStatus, ALL_BITS);
    d.Prepare(0, None, 0, arg);
    d.Start(code);
    var rdat := d.Read(IntStatus);
    var detErr := rdat as int / 2 != 0;
    d.Write(IntStatus, ALL_BITS);
    r := if detErr then Failure else Success;
  }

  /** The response read twice; the second value is the one used. */
  method ReadResponse(d: Driver) returns (resp: Word)
    requires d.Ready() && d.view.cur.Cmd?
    modifies d`trace, d`view, d`script, d`rspData
    ensures d.Ready() && d.view == old(d.view).(cur := old(d.view.cur).(resp := resp))
  {
    d.GetRespData();
    resp := d.Read(RespD1);
  }

  /** A round may begin: after CMD8 with its echo, or after a CMD41 that said not yet. */
  predicate MayAsk(v: View, b: nat, n: nat) {
    || (n == 0 && At(v, b, Asked) && (Clean(v.cur) ==> v.cur.resp as int % 0x200 == IF_COND as int))
    || (At(v, b, OpCond(n)) && Clean(v.cur) && !IsReady(v.cur.resp))
  }

  method SendAppCmd(d: Driver, ghost b: nat, ghost n: nat) returns (r: Status)
    requires d.Ready() && n < RETRY_MAX && MayAsk(d.view, b, n)
    modifies d`trace, d`view, d`script
    ensures d.Ready() && Grown(old(d.view), d.view) && At(d.view, b, App(n))
    ensures r == Success <==> Clean(d.view.cur)
  {
    ghost var v0 := d.view;
    r := SendCmd(d, 55, 0);
    Push(v0, d.view, b, if At(v0, b, Asked) then Asked else OpCond(n));
  }

  /** One round of the loop: CMD55 then CMD41; nothing is returned when either shows an error. */
  method Round(d: Driver, ghost b: nat, ghost n: nat) returns (r: Status, ocr: Word)
    requires d.Ready() && n < RETRY_MAX && MayAsk(d.view, b, n)
    modifies d`trace, d`view, d`script, d`rspData
    ensures d.Ready() && Grown(old(d.view), d.view)
    ensures At(d.view, b, OpCond(n + 1)) || (r == Failure && At(d.view, b, App(n)))
    ensures r == Success ==> At(d.view, b, OpCond(n + 1)) && Clean(d.view.cur) && d.view.cur.resp == ocr
  {
    r := SendAppCmd(d, b, n);
    if r != Success { return Failure, 0; }
    ghost var v1 := d.view;
    r, ocr := AskReady(d, b, n);
    GrownTwice(old(d.view), v1, d.view);
  }

  /** CMD41, and its response unless there was an error. */
  method AskReady(d: Driver, ghost b: nat, ghost n: nat) returns (r: Status, ocr: Word)
    requires d.Ready() && n < RETRY_MAX && At(d.view, b, App(n)) && Clean(d.view.cur)
    modifies d`trace, d`view, d`script, d`rspData
    ensures d.Ready() && Grown(old(d.view), d.view) && At(d.view, b, OpCond(n + 1))
    ensures r == Success ==> Clean(d.view.cur) && d.view.cur.resp == ocr
  {
    ghost var v1 := d.view;
    r := SendCmd(d, 41, OP_COND);
    Push(v1, d.view, b, App(n));
    if r != Success { return Failure, 0; }
    ocr := ReadResponse(d);
  }

  /** CMD55 and CMD41 until the card says ready, at most 1000 times. */
  method PowerUp(d: Driver, ghost b: nat) returns (r: Status, ocr: Word, ghost n: nat, ghost s: Stage)
    requires d.Ready() && At(d.view, b, Asked)
    requires Clean(d.view.cur) ==> d.view.cur.resp as int % 0x200 == IF_COND as int
    modifies d`trace, d`view, d`script, d`rspData
    ensures d.Ready() && Grown(old(d.view), d.view) && s != Broken && At(d.view, b, s)
    ensures r == Success ==>
              && 1 <= n <= RETRY_MAX && At(d.view, b, OpCond(n)) && Clean(d.view.cur)
              && d.view.cur.resp == ocr && IsReady(ocr)
  {
    n := 0;
    var retry := 0;
    while retry < RETRY_MAX
      invariant 0 <= retry <= RETRY_MAX && n == retry && d.Ready()
      invariant if retry == 0 then d.view == old(d.view) else Grown(old(d.view), d.view)
      invariant MayAsk(d.view, b, n)
    {
      ghost var v0 := d.view;
      r, ocr := Round(d, b, n);
      if retry > 0 { GrownTwice(old(d.view), v0, d.view); }
      if r != Success { return Failure, 0, n, if At(d.view, b, OpCond(n + 1)) then OpCond(n + 1) else App(n); }
      n := n + 1;
      if IsReady(ocr) { return Success, ocr, n, OpCond(n); }
      retry := retry + 1;
    }
    r, ocr, s := Failure, 0, OpCond(n);
  }

  /** CMD0 and CMD8; a version-two card must echo the check pattern. */
  method Greet(d: Driver) returns (r: Status, ghost b: nat)
    requires d.Ready()
    modifies d`trace, d`view, d`script, d`rspData
    ensures d.Ready() && Grown(old(d.view), d.view) && b == |Issued(old(d.view))| && At(d.view, b, Asked)
    ensures r == Success <==> (Clean(d.view.cur) ==> d.view.cur.resp as int % 0x200 == IF_COND as int)
  {
    b := |Issued(d.view)|;
    ghost var v0 := d.view;
    r := d.GoIdle();
    First(v0, d.view);
    ghost var v1 := d.view;
    r := SendCmd(d, 8, IF_COND);
    Push(v1, d.view, b, Idled);
    if r == Success {
      var resp := ReadResponse(d);
      if resp as int % 0x200 != IF_COND as int { return Failure, b; }
    }
    r := Success;
  }

  /** CMD2 until it does not time out. */
  method Identify(d: Driver, ghost b: nat, ghost n: nat) returns (r: Status, ghost m: nat)
    requires d.Ready() && At(d.view, b, OpCond(n)) && Clean(d.view.cur) && IsReady(d.view.cur.resp)
    modifies d`trace, d`view, d`script, d`rspData
    ensures d.Ready() && Grown(old(d.view), d.view) && At(d.view, b, Cid(n, m, old(d.view.cur.resp)))
    ensures r == Success <==> Clean(d.view.cur)
  {
    ghost var v0 := d.view;
    r := d.AllSendCid();
    m := |d.view.past| + 1 - |Issued(v0)|;
    CidsDone(v0, d.view, b, n);
  }

  /** CMD3: the card's own address is read from its response. */
  method ReadAddress(d: Driver, ghost b: nat, ghost n: nat, ghost m: nat, ghost ocr: Word) returns (r: Status)
    requires d.Ready() && At(d.view, b, Cid(n, m, ocr)) && Clean(d.view.cur)
    modifies d`trace, d`view, d`script, d`rspData, d`tgtAddr
    ensures d.Ready() && Grown(old(d.view), d.view) && At(d.view, b, Addressed(n, m, ocr))
    ensures r == Success ==> Clean(d.view.cur) && d.tgtAddr == HighHalf(d.view.cur.resp)
  {
    ghost var v0 := d.view;
    r := SendCmd(d, 3, 0);
    Push(v0, d.view, b, Cid(n, m, ocr));
    if r == Success {
      var rca := ReadResponse(d);
      d.tgtAddr := rca / 0x1_0000 * 0x1_0000;
    }
  }

  /** CMD2, CMD3 and CMD7. */
  method Select(d: Driver, ghost b: nat, ghost n: nat) returns (r: Status, ghost s: Stage)
    requires d.Ready() && At(d.view, b, OpCond(n)) && Clean(d.view.cur) && IsReady(d.view.cur.resp)
    modifies d`trace, d`view, d`script, d`rspData, d`tgtAddr, d`blockSize
    ensures d.Ready() && Grown(old(d.view), d.view) && s != Broken && At(d.view, b, s)
    ensures r == Success ==>
              s.Selected? && s.ocr == old(d.view.cur.resp) && Clean(d.view.cur) && d.tgtAddr == d.view.cur.arg
  {
    ghost var v0, ocr := d.view, d.view.cur.resp;
    ghost var m;
    r, m := Identify(d, b, n);
    if r != Success { return Failure, Cid(n, m, ocr); }
    ghost var v1 := d.view;
    r, s := Address(d, b, n, m, ocr);
    GrownTwice(v0, v1, d.view);
  }

  /** CMD3 and CMD7. */
  method Address(d: Driver, ghost b: nat, ghost n: nat, ghost m: nat, ghost ocr: Word)
    returns (r: Status, ghost s: Stage)
    requires d.Ready() && At(d.view, b, Cid(n, m, ocr)) && Clean(d.view.cur)
    modifies d`trace, d`view, d`script, d`rspData, d`tgtAddr, d`blockSize
    ensures d.Ready() && Grown(old(d.view), d.view) && s != Broken && At(d.view, b, s)
    ensures r == Success ==>
              s.Selected? && s.ocr == ocr && Clean(d.view.cur) && d.tgtAddr == d.view.cur.arg
  {
    ghost var v1 := d.view;
    r := ReadAddress(d, b, n, m, ocr);
    if r != Success { return Failure, Addressed(n, m, ocr); }
    ghost var v2 := d.view;
    ghost var sts, asked;
    r, sts, asked := d.Issue(SelectCard);
    GrownTwice(v1, v2, d.view);
    Push(v2, d.view, b, Addressed(n, m, ocr));
    s := Selected(n, m, ocr);
  }

  /** From the rounds of CMD41 on. */
  method Continue(d: Driver, ghost b: nat) returns (r: Status, isHighCapacity: nat, ghost s: Stage)
    requires d.Ready() && At(d.view, b, Asked)
    requires Clean(d.view.cur) ==> d.view.cur.resp as int % 0x200 == IF_COND as int
    modifies d`trace, d`view, d`script, d`rspData, d`tgtAddr, d`blockSize
    ensures d.Ready() && Grown(old(d.view), d.view) && s != Broken && At(d.view, b, s)
    ensures r == Success ==> s.Selected? && isHighCapacity == HighCapacity(s.ocr) && Clean(d.view.cur) &&
                             d.tgtAddr == d.view.cur.arg
  {
    ghost var v0 := d.view;
    var ocr;
    ghost var n;
    r, ocr, n, s := PowerUp(d, b);
    if r != Success { return Failure, 0, s; }
    isHighCapacity := ocr as nat / 0x4000_0000 % 2;
    ghost var v1 := d.view;
    r, s := Select(d, b, n);
    GrownTwice(v0, v1, d.view);
  }

  /**
   * sd_card_init. Whatever the controller answers, the commands issued are a part of the pattern; success means
   * the whole of it, with the capacity bit of the operating conditions that ended the rounds.
   */
  method CardInit(d: Driver) returns (r: Status, isHighCapacity: nat)
    requires d.Ready() && d.baseAddr != 0
    modifies d
    ensures d.Ready() && Issued(old(d.view)) <= Issued(d.view)
    ensures var t := Issued(d.view)[|Issued(old(d.view))|..];
            && StageOf(t) != Broken
            && (r == Success ==> StageOf(t).Selected? && isHighCapacity == HighCapacity(StageOf(t).ocr) &&
                                 Clean(d.view.cur) && d.tgtAddr == d.view.cur.arg)
  {
    isHighCapacity := 0;
    ghost var b, v0 := 0, d.view;
    r, b := Greet(d);
    ghost var s := Asked;
    if r == Success {
      ghost var v1 := d.view;
      r, isHighCapacity, s := Continue(d, b);
      GrownTwice(v0, v1, d.view);
    }
    AtMeansStage(d.view, b, s);
  }
}
