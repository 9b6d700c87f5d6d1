/** The bit-field macros of the driver header, as arithmetic on 32-bit words. */
module Fields {
  import opened Arith
  import opened Words

  /** A field of `len` bits whose lowest is bit `idx`. */
  datatype Field = Field(idx: nat, len: nat)

  predicate Fits(f: Field) { f.len < 32 && f.idx + f.len <= 32 }

  /** GET_FIELD_VAL: shift right and mask. */
  function Get(w: nat, f: Field): nat { w / Pow2(f.idx) % Pow2(f.len) }

  /** SET_REG_FIELD: clear the field, then put the value's low bits there. */
  function Set(w: nat, v: nat, f: Field): int {
    w - Get(w, f) * Pow2(f.idx) + v % Pow2(f.len) * Pow2(f.idx)
  }

  /** Field f lies wholly below field g. */
  predicate Below(f: Field, g: Field) { f.idx + f.len <= g.idx }

  lemma {:induction false} PowAdd(a: nat, b: nat)
    ensures Pow2(a + b) == Pow2(a) * Pow2(b)
  {
    if a > 0 { PowAdd(a - 1, b); }
  }

  /** A number put together from a high, a middle and a low part comes apart into them. */
  lemma Apart(h: nat, m: nat, l: nat, a: nat, b: nat)
    requires l < a && m < b
    ensures var w := (h * b + m) * a + l;
            w / a == h * b + m && w % a == l && w / a % b == m && w / a / b == h
  {
    DivModIs((h * b + m) * a + l, h * b + m, l, a);
    DivModIs(h * b + m, h, m, b);
  }

  /** The parts of a word around a field. */
  lemma PartsOf(w: nat, a: nat, b: nat)
    requires 0 < a && 0 < b
    ensures w == (w / a / b * b + w / a % b) * a + w % a
    ensures w % a < a && w / a % b < b
  {
    Euclid(w, a);
    Euclid(w / a, b);
  }

  lemma Regroup(h: nat, m: nat, l: nat, n: nat, a: nat, b: nat)
    ensures (h * b + m) * a + l - m * a + n * a == (h * b + n) * a + l
  {
    assert (h * b + m) * a == h * b * a + m * a;
    assert (h * b + n) * a == h * b * a + n * a;
  }

  /** A number with another middle part is put together from the parts. */
  lemma Rebuilt(w: nat, h: nat, m: nat, l: nat, n: nat, a: nat, b: nat, s: int)
    requires w == (h * b + m) * a + l && s == w - m * a + n * a
    ensures s == (h * b + n) * a + l
  {
    Regroup(h, m, l, n, a, b);
  }

  lemma ApartOf(s: nat, h: nat, m: nat, l: nat, a: nat, b: nat)
    requires l < a && m < b && s == (h * b + m) * a + l
    ensures s / a % b == m && s % a == l && s / a / b == h
  {
    Apart(h, m, l, a, b);
  }

  /** Replacing the middle part of a number, given its parts. */
  lemma ReplacePart(w: nat, h: nat, m: nat, l: nat, n: nat, a: nat, b: nat, s: int)
    requires l < a && n < b && w == (h * b + m) * a + l && s == w - m * a + n * a
    ensures s >= 0 && s / a % b == n && s % a == l && s / a / b == h
  {
    Rebuilt(w, h, m, l, n, a, b, s);
    ApartOf(s, h, n, l, a, b);
  }

  lemma Divided(w: nat, a: nat, b: nat) returns (h: nat, m: nat, l: nat)
    requires 0 < a && 0 < b
    ensures h == w / a / b && m == w / a % b && l == w % a && m < b && l < a && w == (h * b + m) * a + l
  {
    h, m, l := w / a / b, w / a % b, w % a;
    PartsOf(w, a, b);
  }

  /** Replacing the middle part of a number. */
  lemma Replace(w: nat, n: nat, a: nat, b: nat, s: int)
    requires 0 < a && n < b && s == w - w / a % b * a + n * a
    ensures s >= 0 && s / a % b == n && s % a == w % a && s / a / b == w / a / b
  {
    var h, m, l := Divided(w, a, b);
    ReplacePart(w, h, m, l, n, a, b, s);
  }

  /** Setting a field replaces its part and keeps the other two. */
  lemma SetParts(w: nat, v: nat, f: Field)
    ensures Set(w, v, f) >= 0
    ensures var s := Set(w, v, f) as nat;
            && Get(s, f) == v % Pow2(f.len)
            && s % Pow2(f.idx) == w % Pow2(f.idx)
            && s / Pow2(f.idx) / Pow2(f.len) == w / Pow2(f.idx) / Pow2(f.len)
  {
    Replace(w, v % Pow2(f.len), Pow2(f.idx), Pow2(f.len), Set(w, v, f));
  }

  /** What was set is what is got. */
  lemma GetAfterSet(w: nat, v: nat, f: Field)
    ensures Set(w, v, f) >= 0 && Get(Set(w, v, f), f) == v % Pow2(f.len)
  {
    SetParts(w, v, f);
  }

  /** Dividing twice divides by the product. */
  lemma DivTwice(w: nat, a: nat, b: nat)
    requires 0 < a && 0 < b
    ensures 0 < a * b && w / a / b == w / (a * b)
  {
    var h, m, l := w / a / b, w / a % b, w % a;
    PartsOf(w, a, b);
    Joined(h, m, l, a, b);
    DivModIs(w, h, m * a + l, a * b);
  }

  lemma Joined(h: nat, m: nat, l: nat, a: nat, b: nat)
    requires l < a && m < b
    ensures (h * b + m) * a + l == h * (a * b) + (m * a + l) && m * a + l < a * b
  {
    assert (m + 1) * a <= b * a;
    assert (h * b + m) * a == h * b * a + m * a;
    assert h * b * a == h * (a * b);
  }

  /** A field above another sees only what is above that one. */
  lemma AboveSeesHigh(w: nat, f: Field, g: Field)
    requires Below(f, g)
    ensures Get(w, g) == w / Pow2(f.idx) / Pow2(f.len) / Pow2(g.idx - f.idx - f.len) % Pow2(g.len)
  {
    var rest := g.idx - f.idx - f.len;
    DivTwice(w, Pow2(f.idx), Pow2(f.len));
    PowAdd(f.idx, f.len);
    DivTwice(w, Pow2(f.idx + f.len), Pow2(rest));
    PowAdd(f.idx + f.len, rest);
  }

  lemma LowPart(w: nat, a: nat, b: nat, c: nat)
    requires 0 < a && 0 < b && 0 < c && 0 < a * b * c
    ensures w / a % b == w % (a * b * c) / a % b
  {
    var p := a * b * c;
    var top, low := w / p, w % p;
    var q := low / a;
    var h, m, l := q / b, q % b, low % a;
    Euclid(w, p);
    Euclid(low, a);
    Euclid(q, b);
    TopJoins(top, low, h, m, l, w, a, b, c);
  }

  lemma TopJoins(top: nat, low: nat, h: nat, m: nat, l: nat, w: nat, a: nat, b: nat, c: nat)
    requires l < a && m < b && low == (h * b + m) * a + l && w == top * (a * b * c) + low
    ensures w / a % b == m
  {
    Distribute(top, a, b, c, h, m);
    Apart(top * c + h, m, l, a, b);
  }

  /** A field below another sees only what is below that one. */
  lemma BelowSeesLow(w: nat, f: Field, g: Field)
    requires Below(f, g)
    ensures Get(w, f) == Get(w % Pow2(g.idx), f)
  {
    PowAdd(f.idx, f.len);
    PowAdd(f.idx + f.len, g.idx - f.idx - f.len);
    LowPart(w, Pow2(f.idx), Pow2(f.len), Pow2(g.idx - f.idx - f.len));
  }

  lemma Distribute(t: nat, a: nat, b: nat, c: nat, h: nat, m: nat)
    ensures t * (a * b * c) + (h * b + m) * a == ((t * c + h) * b + m) * a
  {
    var x := t * c;
    assert t * (a * b * c) == x * (a * b);
    assert (x + h) * b == x * b + h * b;
    assert (x * b + h * b + m) * a == x * b * a + (h * b + m) * a;
    assert x * b * a == x * (a * b);
  }

  /** Setting one field leaves a disjoint one alone. */
  lemma SetKeepsOther(w: nat, v: nat, f: Field, g: Field)
    requires Below(f, g) || Below(g, f)
    ensures Set(w, v, f) >= 0 && Get(Set(w, v, f), g) == Get(w, g)
  {
    SetParts(w, v, f);
    var s := Set(w, v, f) as nat;
    if Below(f, g) {
      AboveSeesHigh(w, f, g);
      AboveSeesHigh(s, f, g);
    } else {
      BelowSeesLow(w, g, f);
      BelowSeesLow(s, g, f);
    }
  }

  /** Sets of disjoint fields commute. */
  lemma SetsCommute(w: nat, u: nat, v: nat, f: Field, g: Field)
    requires Below(f, g) || Below(g, f)
    ensures Set(w, u, f) >= 0 && Set(w, v, g) >= 0
    ensures Set(Set(w, u, f), v, g) == Set(Set(w, v, g), u, f)
  {
    SetKeepsOther(w, u, f, g);
    SetKeepsOther(w, v, g, f);
  }

  /** A number is below p * c exactly when its quotient by p is below c. */
  lemma QuotientBound(n: nat, p: nat, c: nat)
    requires 0 < p
    ensures n < p * c <==> n / p < c
  {
    Euclid(n, p);
    var q := n / p;
    if q < c { assert (q + 1) * p <= c * p; } else { assert q * p >= c * p; }
  }

  /** A field of a 32-bit word is set within 32 bits. */
  lemma SetFits(w: nat, v: nat, f: Field)
    requires Fits(f) && w < Pow2(32)
    ensures 0 <= Set(w, v, f) < Pow2(32)
  {
    var a, b, c := Pow2(f.idx), Pow2(f.len), Pow2(32 - f.idx - f.len);
    PowAdd(f.idx, f.len);
    PowAdd(f.idx + f.len, 32 - f.idx - f.len);
    SetParts(w, v, f);
    DivTwice(w, a, b);
    DivTwice(Set(w, v, f), a, b);
    QuotientBound(w, a * b, c);
    QuotientBound(Set(w, v, f), a * b, c);
  }

  lemma ZeroField(f: Field)
    ensures Get(0, f) == 0
  {
    DivModIs(0, 0, 0, Pow2(f.idx));
    DivModIs(0, 0, 0, Pow2(f.len));
  }

  lemma WordRange()
    ensures Pow2(32) == 0x1_0000_0000
  {
    PowAdd(16, 16);
    PowAdd(8, 8);
    assert Pow2(8) == 256 by { PowAdd(4, 4); assert Pow2(4) == 16; }
  }

  /** SET_REG_FIELD on a 32-bit variable. */
  function SetWord(w: Word, v: nat, f: Field): (s: Word)
    requires Fits(f)
    ensures Get(s as nat, f) == v % Pow2(f.len) && s as int == Set(w as nat, v, f)
  {
    WordRange();
    SetFits(w as nat, v, f);
    GetAfterSet(w as nat, v, f);
    Set(w as nat, v, f) as Word
  }
}
