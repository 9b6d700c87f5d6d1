/** The register form of the FIFO: pointers, a count and registered outputs that behave as a sequence whose first
    element is always in view. */
module ShowAheadFifo {
  import opened Words

  /** The slot k places after p in a ring of n. */
  function Slot(n: nat, p: nat, k: nat): (q: nat)
    requires p < n && k <= n
    ensures q < n
  {
    if p + k < n then p + k else p + k - n
  }

  /** Element k of the contents is in its slot. */
  predicate InPlace(mem: seq<Word>, r: nat, c: seq<Word>, k: nat)
    requires r < |mem| && k < |c| <= |mem|
  {
    mem[Slot(|mem|, r, k)] == c[k]
  }

  predicate Shows(mem: seq<Word>, r: nat, c: seq<Word>)
    requires r < |mem| && |c| <= |mem|
  {
    forall k :: 0 <= k < |c| ==> InPlace(mem, r, c, k)
  }

  lemma ReadMoves(mem: seq<Word>, r: nat, c: seq<Word>)
    requires r < |mem| && 0 < |c| <= |mem| && Shows(mem, r, c)
    ensures Shows(mem, Slot(|mem|, r, 1), c[1..])
    ensures Slot(|mem|, r, |c|) == Slot(|mem|, Slot(|mem|, r, 1), |c| - 1)
  {
    forall k | 0 <= k < |c| - 1 ensures InPlace(mem, Slot(|mem|, r, 1), c[1..], k) {
      assert InPlace(mem, r, c, k + 1);
    }
  }

  lemma WriteAppends(mem: seq<Word>, r: nat, c: seq<Word>, d: Word)
    requires r < |mem| && |c| < |mem| && Shows(mem, r, c)
    ensures Shows(mem[Slot(|mem|, r, |c|) := d], r, c + [d])
    ensures Slot(|mem|, Slot(|mem|, r, |c|), 1) == Slot(|mem|, r, |c| + 1)
  {
    var mem', c' := mem[Slot(|mem|, r, |c|) := d], c + [d];
    forall k | 0 <= k < |c'| ensures InPlace(mem', r, c', k) {
      if k < |c| { assert InPlace(mem, r, c, k); }
    }
  }

  class Fifo {
    const memArray: array<Word>
    var sizeCntr: nat
    var wptr: nat
    var rptr: nat
    var dtout: Word
    var full: bool
    var emty: bool

    /** What was written and not yet read, oldest first. */
    ghost var contents: seq<Word>

    ghost predicate Valid()
      reads this, memArray
    {
      var n := memArray.Length;
      && rptr < n && sizeCntr == |contents| <= n && wptr == Slot(n, rptr, sizeCntr)
      && Shows(memArray[..], rptr, contents)
      && (contents != [] ==> dtout == contents[0])
      && full == (|contents| == n) && emty == (contents == [])
    }

    constructor (depth: nat)
      requires depth > 0
      ensures Valid() && contents == [] && memArray.Length == depth && fresh(memArray)
    {
      memArray := new Word[depth](_ => 0);
      sizeCntr, wptr, rptr, dtout, full, emty := 0, 0, 0, 0, false, true;
      contents := [];
    }

    /** The pointer after one more access, or none. */
    method Advance(p: nat, step: bool) returns (q: nat)
      requires p < memArray.Length
      ensures q == if step then Slot(memArray.Length, p, 1) else p
    {
      var maxCnt := memArray.Length - 1;
      if p == maxCnt {
        q := if step then 0 else p;
      } else {
        q := p + (if step then 1 else 0);
      }
    }

    /** The write port: the word goes behind the elements that stay. */
    method Store(dtin: Word, ghost r: nat, ghost kept: seq<Word>)
      requires r < memArray.Length && |kept| < memArray.Length && Shows(memArray[..], r, kept)
      requires wptr == Slot(memArray.Length, r, |kept|)
      modifies memArray
      ensures Shows(memArray[..], r, kept + [dtin])
      ensures Slot(memArray.Length, wptr, 1) == Slot(memArray.Length, r, |kept| + 1)
    {
      ghost var mem := memArray[..];
      WriteAppends(mem, r, kept, dtin);
      memArray[wptr] := dtin;
      assert memArray[..] == mem[wptr := dtin];
    }

    /** The registered output takes what will be the oldest element. */
    method Show(rptrNxt: nat, ghost kept: seq<Word>)
      requires rptrNxt < memArray.Length && 0 < |kept| <= memArray.Length && Shows(memArray[..], rptrNxt, kept)
      modifies this`dtout
      ensures dtout == kept[0]
    {
      assert InPlace(memArray[..], rptrNxt, kept, 0);
      dtout := memArray[rptrNxt];
    }

    /** One clock edge. Reading is for a FIFO with something in view, writing for one with room after the read. */
    method Tick(wren: bool, rden: bool, clr: bool, dtin: Word)
      requires Valid() && (rden ==> !emty) && (wren ==> !full || rden)
      modifies this, memArray
      ensures Valid()
      ensures contents == if clr then []
                          else (if rden then old(contents)[1..] else old(contents)) + (if wren then [dtin] else [])
    {
      var wptrNxt := Advance(wptr, wren);
      var rptrNxt := Advance(rptr, rden);
      var sizeNxt := if wren && !rden then sizeCntr + 1 else if rden && !wren then sizeCntr - 1 else sizeCntr;
      ghost var kept := if rden then contents[1..] else contents;
      if rden { ReadMoves(memArray[..], rptr, contents); }
      if wren {
        Store(dtin, rptrNxt, kept);
        kept := kept + [dtin];
      }
      if sizeNxt != 0 { Show(rptrNxt, kept); }
      contents, sizeCntr, wptr, rptr := kept, sizeNxt, wptrNxt, rptrNxt;
      full, emty := sizeNxt == memArray.Length, sizeNxt == 0;
      if clr {
        contents, sizeCntr, wptr, rptr := [], 0, 0, 0;
        full, emty := false, true;
      }
    }
  }
}
