/**
  Polynomials over GF(2), and the reading of the frame check sequence as a remainder: the register
  holds the rest of the message polynomial on division by x^16 + x^12 + x^5 + 1.
 */
module Gf2 {
  import opened Bits
  import opened Crc16

  // The exponents whose coefficient is one.
  type Poly = set<nat>

  const GENERATOR: Poly := {16, 12, 5, 0}

  function Add(p: Poly, q: Poly): Poly {
    (p - q) + (q - p)
  }

  // Multiplication by x^n.
  function Raise(p: Poly, n: nat): Poly {
    set e | e in p :: e + n
  }

  // Bits in the order of transmission: the first one belongs to the highest power.
  predicate Coefficient(bits: seq<bool>, e: nat) {
    e < |bits| && bits[|bits| - 1 - e]
  }

  function FromBits(bits: seq<bool>): Poly {
    set e: nat | e < |bits| && Coefficient(bits, e)
  }

  // The product of the polynomial written by q and of p, one term of q at a time.
  function Product(q: seq<bool>, p: Poly): Poly {
    if q == [] then {}
    else Add(if q[0] then Raise(p, |q| - 1) else {}, Product(q[1..], p))
  }

  // r is what remains of d on division by the generator.
  ghost predicate IsRemainder(d: Poly, r: Poly) {
    && (forall e :: e in r ==> e < 16)
    && exists q: seq<bool> :: d == Add(Product(q, GENERATOR), r)
  }

  // A message behind a start value s: s(x) * x^n + m(x) * x^16.
  function Dividend(s: seq<bool>, bits: seq<bool>): Poly {
    Add(Raise(FromBits(s), |bits|), Raise(FromBits(bits), 16))
  }

  // ---------- the register is a remainder ----------

  lemma AddAssociative(p: Poly, q: Poly, r: Poly)
    ensures Add(Add(p, q), r) == Add(p, Add(q, r))
  {
  }

  lemma RaiseAdd(p: Poly, q: Poly, n: nat)
    ensures Raise(Add(p, q), n) == Add(Raise(p, n), Raise(q, n))
  {
    forall e: nat
      ensures e in Raise(Add(p, q), n) <==> e in Add(Raise(p, n), Raise(q, n))
    {
      if e >= n {
        assert e == (e - n) + n;
      }
    }
  }

  lemma RaiseTwice(p: Poly, m: nat, n: nat)
    ensures Raise(Raise(p, m), n) == Raise(p, m + n)
  {
    forall e: nat
      ensures e in Raise(Raise(p, m), n) <==> e in Raise(p, m + n)
    {
      if e >= m + n && e - m - n in p {
        assert e - n in Raise(p, m);
      }
    }
  }

  // One shift of the register multiplies by x, adds the incoming bit at x^16 and reduces.
  lemma ShiftReduces(s: seq<bool>, b: bool)
    requires |s| == 16
    ensures Add(Raise(FromBits(s), 1), if b then {16} else {})
      == Add(if s[0] != b then GENERATOR else {}, FromBits(Shift(s, b)))
  {
    var t, f := Shift(s, b), s[0] != b;
    var before := Add(Raise(FromBits(s), 1), if b then {16} else {});
    var after := Add(if f then GENERATOR else {}, FromBits(t));
    forall e: nat
      ensures e in before <==> e in after
    {
      RaisedBits(s, e);
      if e < 16 {
        assert t[15 - e] == ((e > 0 && s[16 - e]) != (IsTap(15 - e) && f));
        assert e in FromBits(t) <==> Coefficient(t, e);
      }
    }
  }

  lemma RaisedBits(s: seq<bool>, e: nat)
    ensures e in Raise(FromBits(s), 1) <==> 1 <= e <= |s| && s[|s| - e]
  {
    if 1 <= e <= |s| {
      assert e == (e - 1) + 1;
      assert Coefficient(s, e - 1) <==> s[|s| - e];
      assert e - 1 in FromBits(s) <==> Coefficient(s, e - 1);
    }
  }

  lemma FirstTerm(bits: seq<bool>)
    requires bits != []
    ensures FromBits(bits) == Add(if bits[0] then {|bits| - 1} else {}, FromBits(bits[1..]))
  {
    var n := |bits| - 1;
    forall e: nat
      ensures e in FromBits(bits) <==> e in Add(if bits[0] then {n} else {}, FromBits(bits[1..]))
    {
      if e < n {
        assert Coefficient(bits[1..], e) <==> Coefficient(bits, e);
      }
    }
  }

  // The quotient is the sequence of feedback bits.
  function Quotient(s: seq<bool>, bits: seq<bool>): (q: seq<bool>)
    requires |s| == 16
    ensures |q| == |bits|
    decreases |bits|
  {
    if bits == [] then [] else [s[0] != bits[0]] + Quotient(Shift(s, bits[0]), bits[1..])
  }

  // The first input bit, moved up to the place the register reaches with it.
  lemma FirstBit(b: bool, m: nat)
    ensures Raise(if b then {m} else {}, 16) == Raise(if b then {16} else {}, m)
  {
  }

  // One step of the register, moved up by the number of bits that follow.
  lemma RaisedStep(s: seq<bool>, b: bool, m: nat)
    requires |s| == 16
    ensures Add(Raise(FromBits(s), m + 1), Raise(if b then {16} else {}, m))
      == Add(Raise(if s[0] != b then GENERATOR else {}, m), Raise(FromBits(Shift(s, b)), m))
  {
    RaiseTwice(FromBits(s), 1, m);
    ShiftReduces(s, b);
    RaiseAdd(Raise(FromBits(s), 1), if b then {16} else {}, m);
    RaiseAdd(if s[0] != b then GENERATOR else {}, FromBits(Shift(s, b)), m);
  }

  lemma RaiseNone(n: nat)
    ensures Raise({}, n) == {}
  {
  }

  lemma DividendStep(s: seq<bool>, bits: seq<bool>)
    requires |s| == 16 && bits != []
    ensures Dividend(s, bits)
      == Add(if s[0] != bits[0] then Raise(GENERATOR, |bits| - 1) else {}, Dividend(Shift(s, bits[0]), bits[1..]))
  {
    var b, m := bits[0], |bits| - 1;
    var bit, tail := Raise(if b then {16} else {}, m), Raise(FromBits(bits[1..]), 16);
    FirstTerm(bits);
    RaiseAdd(if b then {m} else {}, FromBits(bits[1..]), 16);
    FirstBit(b, m);
    RaisedStep(s, b, m);
    RaiseNone(m);
    AddAssociative(Raise(FromBits(s), m + 1), bit, tail);
    AddAssociative(Raise(if s[0] != b then GENERATOR else {}, m), Raise(FromBits(Shift(s, b)), m), tail);
  }

  lemma {:induction false} DivisionStepwise(s: seq<bool>, bits: seq<bool>)
    requires |s| == 16
    ensures Dividend(s, bits) == Add(Product(Quotient(s, bits), GENERATOR), FromBits(FeedBits(s, bits)))
    decreases |bits|
  {
    if bits == [] {
      RaiseZero(FromBits(s));
      assert Raise(FromBits([]), 16) == {};
    } else {
      var t := Shift(s, bits[0]);
      var q := Quotient(s, bits);
      assert q[1..] == Quotient(t, bits[1..]);
      DividendStep(s, bits);
      DivisionStepwise(t, bits[1..]);
      AddAssociative(if q[0] then Raise(GENERATOR, |q| - 1) else {}, Product(q[1..], GENERATOR),
        FromBits(FeedBits(s, bits)));
    }
  }

  lemma RaiseZero(p: Poly)
    ensures Raise(p, 0) == p
  {
    forall e: nat
      ensures e in Raise(p, 0) <==> e in p
    {
      assert e == e + 0;
    }
  }

  // ---------- and there is only one remainder ----------

  lemma {:induction false} ProductBound(q: seq<bool>)
    ensures forall e :: e in Product(q, GENERATOR) ==> e < 16 + |q|
  {
    if q == [] {
    } else {
      ProductBound(q[1..]);
    }
  }

  // A multiple of the generator is zero or reaches degree sixteen.
  lemma {:induction false} ProductDegree(q: seq<bool>) returns (top: nat)
    ensures Product(q, GENERATOR) == {} || (top in Product(q, GENERATOR) && top >= 16)
  {
    if q == [] {
      top := 0;
    } else if q[0] {
      top := 16 + |q| - 1;
      ProductBound(q[1..]);
      assert top in Raise(GENERATOR, |q| - 1);
    } else {
      top := ProductDegree(q[1..]);
    }
  }

  lemma {:induction false} ProductXor(a: seq<bool>, b: seq<bool>, p: Poly)
    requires |a| == |b|
    ensures Product(Xor(a, b), p) == Add(Product(a, p), Product(b, p))
  {
    if a == [] {
    } else {
      assert Xor(a, b)[1..] == Xor(a[1..], b[1..]);
      ProductXor(a[1..], b[1..], p);
    }
  }

  lemma {:induction false} ProductPad(n: nat, q: seq<bool>, p: Poly)
    ensures Product(Zeros(n) + q, p) == Product(q, p)
  {
    if n == 0 {
      assert Zeros(0) + q == q;
    } else {
      assert (Zeros(n) + q)[1..] == Zeros(n - 1) + q;
      ProductPad(n - 1, q, p);
    }
  }

  lemma Cancel(a: Poly, r: Poly, b: Poly, t: Poly)
    requires Add(a, r) == Add(b, t)
    ensures Add(a, b) == Add(r, t)
  {
    forall x: nat
      ensures x in Add(a, b) <==> x in Add(r, t)
    {
      assert x in Add(a, r) <==> x in Add(b, t);
    }
  }

  lemma RemainderUnique(d: Poly, r: Poly, t: Poly)
    requires IsRemainder(d, r) && IsRemainder(d, t)
    ensures r == t
  {
    var a: seq<bool> :| d == Add(Product(a, GENERATOR), r);
    var b: seq<bool> :| d == Add(Product(b, GENERATOR), t);
    var c, e := Zeros(|b|) + a, Zeros(|a|) + b;
    ProductPad(|b|, a, GENERATOR);
    ProductPad(|a|, b, GENERATOR);
    ProductXor(c, e, GENERATOR);
    var top := ProductDegree(Xor(c, e));
    Cancel(Product(c, GENERATOR), r, Product(e, GENERATOR), t);
    assert Add(r, t) == {};
  }

  // For every message, the raw register of crc16 is the remainder, and nothing else is.
  lemma RegisterIsRemainder(data: seq<byte>, r: Poly)
    ensures IsRemainder(Dividend(WordBits(0xFFFF), MessageBits(data)), r) <==> r == FromBits(WordBits(Register(data)))
  {
    var s, bits := WordBits(START), MessageBits(data);
    var d, rem := Dividend(s, bits), FromBits(WordBits(Register(data)));
    FeedIsFeedBits(START, bits);
    DivisionStepwise(s, bits);
    assert IsRemainder(d, rem);
    if IsRemainder(d, r) {
      RemainderUnique(d, r, rem);
    }
  }
}
