/** Polynomials over GF(2) as sequences of coefficients, highest power first, and the
    shift register that divides by a monic generator of degree 16.

    A generator x^16 + g is given by the 16 coefficients `g` below its leading one. */
module Gf2 {

  type Bits = seq<bool>

  const DEGREE: nat := 16

  function Zeros(n: nat): (z: Bits)
    ensures |z| == n && forall i :: 0 <= i < n ==> !z[i]
  {
    seq(n, _ => false)
  }

  function Xor(a: Bits, b: Bits): (r: Bits)
    requires |a| == |b|
    ensures |r| == |a| && forall i :: 0 <= i < |r| ==> r[i] == (a[i] != b[i])
  {
    seq(|a|, i requires 0 <= i < |a| => a[i] != b[i])
  }

  function Gate(c: bool, g: Bits): (r: Bits)
    ensures |r| == |g| && forall i :: 0 <= i < |r| ==> r[i] == (c && g[i])
  {
    if c then g else Zeros(|g|)
  }

  /** The product q * g. */
  function Times(q: Bits, g: Bits): (r: Bits)
    requires 0 < |g|
    ensures |r| == |q| + |g| - 1
  {
    if q == [] then Zeros(|g| - 1)
    else
      var n := |q| - 1;
      Xor(Times(q[..n], g) + [false], Zeros(n) + Gate(q[n], g))
  }

  /** One message bit enters the register. */
  function Shift(reg: Bits, b: bool, g: Bits): (r: Bits)
    requires |reg| == |g| == DEGREE
    ensures |r| == DEGREE
  {
    Xor(reg[1..] + [false], Gate(reg[0] != b, g))
  }

  /** The register after a whole message, first bit first. */
  function Feed(reg: Bits, msg: Bits, g: Bits): (r: Bits)
    requires |reg| == |g| == DEGREE
    ensures |r| == DEGREE
  {
    if msg == [] then reg
    else Shift(Feed(reg, msg[..|msg| - 1], g), msg[|msg| - 1], g)
  }

  /** reg * x^n + msg * x^16, the dividend of a message of n bits with initial register `reg`. */
  function Dividend(reg: Bits, msg: Bits): Bits
    requires |reg| == DEGREE
  {
    Xor(reg + Zeros(|msg|), msg + Zeros(DEGREE))
  }

  ghost predicate Divides(q: Bits, r: Bits, reg: Bits, msg: Bits, g: Bits)
    requires |reg| == |g| == DEGREE
  {
    |q| == |msg| && |r| == DEGREE &&
    Dividend(reg, msg) == Xor(Times(q, [true] + g), Zeros(|msg|) + r)
  }

  /** `r` is a remainder of the dividend modulo x^16 + g. */
  ghost predicate IsRemainder(r: Bits, reg: Bits, msg: Bits, g: Bits)
    requires |reg| == |g| == DEGREE
  {
    exists q :: Divides(q, r, reg, msg, g)
  }

  lemma {:induction false} TimesSnoc(q: Bits, c: bool, g: Bits)
    requires 0 < |g|
    ensures Times(q + [c], g) == Xor(Times(q, g) + [false], Zeros(|q|) + Gate(c, g))
  {
    hide Xor, Zeros, Gate;
    assert (q + [c])[..|q|] == q;
  }

  /** The quotient that the register works out while it shifts. */
  function Quotient(reg: Bits, msg: Bits, g: Bits): (q: Bits)
    requires |reg| == |g| == DEGREE
    ensures |q| == |msg|
  {
    if msg == [] then []
    else
      var n := |msg| - 1;
      Quotient(reg, msg[..n], g) + [Feed(reg, msg[..n], g)[0] != msg[n]]
  }

  lemma {:induction false} FeedDivides(reg: Bits, msg: Bits, g: Bits)
    requires |reg| == |g| == DEGREE
    ensures Divides(Quotient(reg, msg, g), Feed(reg, msg, g), reg, msg, g)
  {
    hide Shift, Xor, Zeros, Gate;
    if msg == [] {
      assert Dividend(reg, msg) == reg;
      assert Xor(Times([], [true] + g), Zeros(0) + reg) == reg;
    } else {
      var n := |msg| - 1;
      var m := msg[..n];
      FeedDivides(reg, m, g);
      DivideStep(Quotient(reg, m, g), Feed(reg, m, g), reg, m, msg[n], g);
      assert m + [msg[n]] == msg;
    }
  }

  lemma DivideStep(q: Bits, r: Bits, reg: Bits, msg: Bits, b: bool, g: Bits)
    requires |reg| == |g| == DEGREE && Divides(q, r, reg, msg, g)
    ensures Divides(q + [r[0] != b], Shift(r, b, g), reg, msg + [b], g)
  {
    hide Xor, Zeros, Gate;
    var n, c := |msg|, r[0] != b;
    var G := [true] + g;
    TimesSnoc(q, c, G);
    var dividend, next := Dividend(reg, msg), Dividend(reg, msg + [b]);
    var product, shifted := Times(q, G), Shift(r, b, g);
    var rhs := Xor(Times(q + [c], G), Zeros(n + 1) + shifted);
    assert |next| == |rhs| == n + 17;
    forall i | 0 <= i < n + 17
      ensures next[i] == rhs[i]
    {
      var low := i - n;
      if low < 0 {
        assert dividend[i] == product[i];
      } else if low < 16 {
        assert dividend[i] == (product[i] != r[low]);
        assert Gate(c, G)[low] == (c && G[low]);
        if low > 0 {
          assert shifted[low - 1] == (r[low] != Gate(c, g)[low - 1]);
        }
      } else {
        assert shifted[15] == Gate(c, g)[15];
      }
    }
    assert next == rhs;
  }

  /** Division has one result. */
  lemma {:induction false} DivisionUnique(q1: Bits, r1: Bits, q2: Bits, r2: Bits, g: Bits)
    requires |q1| == |q2| && |r1| == |r2| == |g| == DEGREE
    requires Xor(Times(q1, [true] + g), Zeros(|q1|) + r1) == Xor(Times(q2, [true] + g), Zeros(|q2|) + r2)
    ensures q1 == q2 && r1 == r2
  {
    hide Xor, Zeros, Gate;
    var G := [true] + g;
    if q1 == [] {
      assert Xor(Times(q1, G), Zeros(0) + r1) == r1;
      assert Xor(Times(q2, G), Zeros(0) + r2) == r2;
    } else {
      var n := |q1| - 1;
      var e1, e2 := Gate(q1[n], G), Gate(q2[n], G);
      var s1, s2 := Xor(e1[..16], [false] + r1[..15]), Xor(e2[..16], [false] + r2[..15]);
      LastStep(q1, r1, G);
      LastStep(q2, r2, G);
      DivisionUnique(q1[..n], s1, q2[..n], s2, g);
      assert s1[0] == q1[n] && s2[0] == q2[n];
      assert q1 == q1[..n] + [q1[n]] && q2 == q2[..n] + [q2[n]];
      forall i | 0 <= i < 16
        ensures r1[i] == r2[i]
      {
        if i < 15 {
          assert s1[i + 1] == (e1[i + 1] != r1[i]) && s2[i + 1] == (e2[i + 1] != r2[i]);
        }
      }
    }
  }

  /** The last row of a long division: what it leaves for the rows above, and its last column. */
  lemma LastStep(q: Bits, r: Bits, G: Bits)
    requires 0 < |q| && |G| == DEGREE + 1 && |r| == DEGREE
    ensures var n, e, w := |q| - 1, Gate(q[|q| - 1], G), Xor(Times(q, G), Zeros(|q|) + r);
            && w[..n + 16] == Xor(Times(q[..n], G), Zeros(n) + Xor(e[..16], [false] + r[..15]))
            && w[n + 16] == (e[16] != r[15])
  {
    hide Xor, Zeros, Gate;
    var n := |q| - 1;
    LastRow(n, Times(q[..n], G), Gate(q[n], G), r);
  }

  lemma LastRow(n: nat, t: Bits, e: Bits, r: Bits)
    requires |t| == n + 16 && |e| == 17 && |r| == 16
    ensures var w := Xor(Xor(t + [false], Zeros(n) + e), Zeros(n + 1) + r);
            && w[..n + 16] == Xor(t, Zeros(n) + Xor(e[..16], [false] + r[..15]))
            && w[n + 16] == (e[16] != r[15])
  {
    hide Xor, Zeros, Gate;
    var row := Xor(t + [false], Zeros(n) + e);
    var w := Xor(row, Zeros(n + 1) + r);
    var x := Xor(t, Zeros(n) + Xor(e[..16], [false] + r[..15]));
    assert row[n + 16] == e[16];
    assert w[..n + 16] == x by {
      forall i | 0 <= i < n + 16
        ensures w[i] == x[i]
      {
        LastRowAt(n, t, e, r, i);
      }
    }
  }

  lemma LastRowAt(n: nat, t: Bits, e: Bits, r: Bits, i: nat)
    requires |t| == n + 16 && |e| == 17 && |r| == 16 && i < n + 16
    ensures Xor(Xor(t + [false], Zeros(n) + e), Zeros(n + 1) + r)[i]
            == Xor(t, Zeros(n) + Xor(e[..16], [false] + r[..15]))[i]
  {
    hide Xor, Zeros, Gate;
    if n < i {
      assert ([false] + r[..15])[i - n] == r[i - n - 1];
    }
  }

  /** The register holds the remainder, and nothing else is a remainder. */
  lemma RemainderIsFeed(r: Bits, reg: Bits, msg: Bits, g: Bits)
    requires |reg| == |g| == DEGREE
    ensures IsRemainder(r, reg, msg, g) <==> r == Feed(reg, msg, g)
  {
    hide Feed, Times, Shift, Quotient, Xor, Zeros, Gate, Dividend;
    FeedDivides(reg, msg, g);
    if q :| Divides(q, r, reg, msg, g) {
      DivisionUnique(q, r, Quotient(reg, msg, g), Feed(reg, msg, g), g);
    }
  }

  lemma {:induction false} FeedConcat(reg: Bits, a: Bits, b: Bits, g: Bits)
    requires |reg| == |g| == DEGREE
    ensures Feed(reg, a + b, g) == Feed(Feed(reg, a, g), b, g)
  {
    hide Shift;
    if b == [] {
      assert a + b == a;
    } else {
      var n := |b| - 1;
      var ab := a + b;
      assert ab[..|ab| - 1] == a + b[..n] && ab[|ab| - 1] == b[n];
      FeedConcat(reg, a, b[..n], g);
      assert Feed(reg, ab, g) == Shift(Feed(reg, a + b[..n], g), b[n], g);
    }
  }

  /** With a constant term in the generator a register determines its predecessor. */
  lemma {:induction false} FeedInjective(r1: Bits, r2: Bits, msg: Bits, g: Bits)
    requires |r1| == |r2| == |g| == DEGREE && g[DEGREE - 1]
    requires Feed(r1, msg, g) == Feed(r2, msg, g)
    ensures r1 == r2
  {
    hide Xor, Zeros, Gate;
    if msg != [] {
      var n := |msg| - 1;
      var p1, p2, b := Feed(r1, msg[..n], g), Feed(r2, msg[..n], g), msg[n];
      var s1, s2 := Shift(p1, b, g), Shift(p2, b, g);
      assert s1 == s2;
      assert p1[0] == p2[0] by { assert s1[15] == s2[15]; }
      forall i | 0 <= i < DEGREE
        ensures p1[i] == p2[i]
      {
        if 0 < i {
          assert s1[i - 1] == s2[i - 1];
        }
      }
      FeedInjective(r1, r2, msg[..n], g);
    }
  }

  /** Up to 16 bits may be added to the register first and shifted through afterwards. */
  lemma {:induction false} FeedAbsorbs(reg: Bits, w: Bits, g: Bits)
    requires |reg| == |g| == DEGREE && |w| <= DEGREE
    ensures Feed(reg, w, g) == Feed(Xor(reg, w + Zeros(DEGREE - |w|)), Zeros(|w|), g)
    decreases |w|
  {
    hide Shift, Zeros, Xor;
    if w == [] {
      assert Xor(reg, Zeros(DEGREE)) == reg;
    } else {
      var v := w[1..];
      var mixed, s := Xor(reg, w + Zeros(DEGREE - |w|)), Shift(reg, w[0], g);
      FeedFirst(reg, w, g);
      FeedFirst(mixed, Zeros(|w|), g);
      assert Zeros(|w|)[1..] == Zeros(|v|);
      FeedAbsorbs(s, v, g);
      AbsorbFirst(reg, w, g);
    }
  }

  lemma AbsorbFirst(reg: Bits, w: Bits, g: Bits)
    requires |reg| == |g| == DEGREE && 0 < |w| <= DEGREE
    ensures Shift(Xor(reg, w + Zeros(DEGREE - |w|)), false, g)
            == Xor(Shift(reg, w[0], g), w[1..] + Zeros(DEGREE + 1 - |w|))
  {
    hide Xor, Zeros, Gate;
    var mixed := Xor(reg, w + Zeros(DEGREE - |w|));
    assert mixed[0] == (reg[0] != w[0]);
    assert mixed[1..] + [false] == Xor(reg[1..] + [false], w[1..] + Zeros(DEGREE + 1 - |w|));
  }

  lemma {:induction false} FeedFirst(reg: Bits, msg: Bits, g: Bits)
    requires |reg| == |g| == DEGREE && msg != []
    ensures Feed(reg, msg, g) == Feed(Shift(reg, msg[0], g), msg[1..], g)
  {
    hide Shift;
    var n := |msg| - 1;
    if n == 0 {
      assert msg[..0] == [] && msg[1..] == [];
      assert Feed(reg, msg[..0], g) == reg;
    } else {
      FeedFirst(reg, msg[..n], g);
      assert msg[..n][1..] == msg[1..][..n - 1];
    }
  }

  /** Messages of any length that differ only inside a window of at most 16 bits. */
  lemma BurstDetected(reg: Bits, before: Bits, w1: Bits, w2: Bits, after: Bits, g: Bits)
    requires |reg| == |g| == DEGREE && g[DEGREE - 1]
    requires |w1| == |w2| <= DEGREE && w1 != w2
    ensures Feed(reg, before + w1 + after, g) != Feed(reg, before + w2 + after, g)
  {
    hide Feed, Shift;
    if Feed(reg, before + w1 + after, g) == Feed(reg, before + w2 + after, g) {
      FeedConcat(reg, before + w1, after, g);
      FeedConcat(reg, before + w2, after, g);
      FeedInjective(Feed(reg, before + w1, g), Feed(reg, before + w2, g), after, g);
      FeedConcat(reg, before, w1, g);
      FeedConcat(reg, before, w2, g);
      WindowInjective(Feed(reg, before, g), w1, w2, g);
    }
  }

  lemma WindowInjective(r: Bits, w1: Bits, w2: Bits, g: Bits)
    requires |r| == |g| == DEGREE && g[DEGREE - 1]
    requires |w1| == |w2| <= DEGREE
    requires Feed(r, w1, g) == Feed(r, w2, g)
    ensures w1 == w2
  {
    hide Feed, Shift, Zeros, Xor;
    var z := Zeros(DEGREE - |w1|);
    FeedAbsorbs(r, w1, g);
    FeedAbsorbs(r, w2, g);
    var x1, x2 := Xor(r, w1 + z), Xor(r, w2 + z);
    FeedInjective(x1, x2, Zeros(|w1|), g);
    forall i | 0 <= i < |w1|
      ensures w1[i] == w2[i]
    {
      assert x1[i] == (r[i] != w1[i]) && x2[i] == (r[i] != w2[i]);
    }
  }

  function Parity(a: Bits): bool {
    if a == [] then false else Parity(a[..|a| - 1]) != a[|a| - 1]
  }

  /** The number of positions in which two messages differ. */
  function Distance(a: Bits, b: Bits): nat
    requires |a| == |b|
  {
    if a == [] then 0
    else
      var n := |a| - 1;
      Distance(a[..n], b[..n]) + if a[n] != b[n] then 1 else 0
  }

  lemma {:induction false} ParityXor(a: Bits, b: Bits)
    requires |a| == |b|
    ensures Parity(Xor(a, b)) == (Parity(a) != Parity(b))
  {
    hide Xor;
    if a != [] {
      var n := |a| - 1;
      assert Xor(a, b)[..n] == Xor(a[..n], b[..n]);
      ParityXor(a[..n], b[..n]);
    }
  }

  lemma {:induction false} ParityCons(c: bool, a: Bits)
    ensures Parity([c] + a) == (c != Parity(a))
  {
    if a == [] {
      assert [c] + a == [c] && [c][..0] == [];
    } else {
      var n := |a| - 1;
      assert ([c] + a)[..|a|] == [c] + a[..n];
      ParityCons(c, a[..n]);
    }
  }

  lemma {:induction false} ParityZeros(n: nat)
    ensures !Parity(Zeros(n))
  {
    if n != 0 {
      assert Zeros(n)[..n - 1] == Zeros(n - 1);
      ParityZeros(n - 1);
    }
  }

  lemma {:induction false} ParityDistance(a: Bits, b: Bits)
    requires |a| == |b|
    ensures Distance(a, b) % 2 == 1 <==> Parity(a) != Parity(b)
  {
    if a != [] {
      ParityDistance(a[..|a| - 1], b[..|b| - 1]);
    }
  }

  /** A generator with x + 1 as a factor makes the register carry the parity of the message. */
  lemma {:induction false} ParityConserved(reg: Bits, msg: Bits, g: Bits)
    requires |reg| == |g| == DEGREE && Parity(g)
    ensures Parity(Feed(reg, msg, g)) == (Parity(reg) != Parity(msg))
  {
    hide Xor, Zeros;
    if msg != [] {
      var n := |msg| - 1;
      var r, b := Feed(reg, msg[..n], g), msg[n];
      ParityConserved(reg, msg[..n], g);
      var up := r[1..] + [false];
      assert up[..15] == r[1..];
      assert Parity(up) == Parity(r[1..]);
      ParityCons(r[0], r[1..]);
      assert [r[0]] + r[1..] == r;
      ParityXor(up, Gate(r[0] != b, g));
      ParityZeros(DEGREE);
    }
  }

  lemma OddErrorDetected(reg: Bits, a: Bits, b: Bits, g: Bits)
    requires |reg| == |g| == DEGREE && Parity(g)
    requires |a| == |b| && Distance(a, b) % 2 == 1
    ensures Feed(reg, a, g) != Feed(reg, b, g)
  {
    hide Feed, Shift;
    ParityDistance(a, b);
    ParityConserved(reg, a, g);
    ParityConserved(reg, b, g);
  }
}
