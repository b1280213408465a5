/** 32-bit registers as sequences of bits, least significant first, with C's operators on them. */
module RegBits {

  type Reg = r: seq<bool> | |r| == 32 witness Constant(false)

  function Constant(b: bool): (r: seq<bool>)
    ensures |r| == 32 && forall n :: 0 <= n < 32 ==> r[n] == b
  {
    seq(32, _ => b)
  }

  function Zero(): Reg { Constant(false) }
  function AllOnes(): Reg { Constant(true) }

  function And(a: Reg, b: Reg): (r: Reg)
    ensures forall n :: 0 <= n < 32 ==> r[n] == (a[n] && b[n])
  {
    seq(32, n requires 0 <= n < 32 => a[n] && b[n])
  }

  function Or(a: Reg, b: Reg): (r: Reg)
    ensures forall n :: 0 <= n < 32 ==> r[n] == (a[n] || b[n])
  {
    seq(32, n requires 0 <= n < 32 => a[n] || b[n])
  }

  function Xor(a: Reg, b: Reg): (r: Reg)
    ensures forall n :: 0 <= n < 32 ==> r[n] == (a[n] != b[n])
  {
    seq(32, n requires 0 <= n < 32 => a[n] != b[n])
  }

  function Not(a: Reg): (r: Reg)
    ensures forall n :: 0 <= n < 32 ==> r[n] == !a[n]
  {
    seq(32, n requires 0 <= n < 32 => !a[n])
  }

  /** a << k, bits pushed past the top lost */
  function Shl(a: Reg, k: nat): (r: Reg)
    ensures forall n :: 0 <= n < 32 ==> r[n] == (k <= n && a[n - k])
  {
    seq(32, n requires 0 <= n < 32 => k <= n && a[n - k])
  }

  /** a >> k */
  function Shr(a: Reg, k: nat): (r: Reg)
    ensures forall n :: 0 <= n < 32 ==> r[n] == (n + k < 32 && a[n + k])
  {
    seq(32, n requires 0 <= n < 32 => n + k < 32 && a[n + k])
  }

  /** BIT(k) */
  function Bit(k: nat): (r: Reg)
    ensures forall n :: 0 <= n < 32 ==> r[n] == (n == k)
  {
    seq(32, n requires 0 <= n < 32 => n == k)
  }

  /** GENMASK(w - 1, 0) */
  function Low(w: nat): (r: Reg)
    ensures forall n :: 0 <= n < 32 ==> r[n] == (n < w)
  {
    seq(32, n requires 0 <= n < 32 => n < w)
  }

  /** Binary digit `n` of a number. */
  predicate Digit(v: nat, n: nat) {
    if n == 0 then v % 2 == 1 else Digit(v / 2, n - 1)
  }

  function Of(v: nat): (r: Reg)
    ensures forall n :: 0 <= n < 32 ==> r[n] == Digit(v, n)
  {
    seq(32, n requires 0 <= n < 32 => Digit(v, n))
  }

  /** The number in bits b .. b + w - 1. */
  function Value(r: Reg, b: nat, w: nat): nat
    requires b + w <= 32
    decreases w
  {
    if w == 0 then 0 else (if r[b] then 1 else 0) + 2 * Value(r, b + 1, w - 1)
  }

  function Pow2(w: nat): nat {
    if w == 0 then 1 else 2 * Pow2(w - 1)
  }

  /** Writing a number of w digits at bit b and reading it there gives it back. */
  lemma {:induction false} ValueOfDigits(r: Reg, b: nat, w: nat, v: nat)
    requires b + w <= 32 && v < Pow2(w)
    requires forall n :: b <= n < b + w ==> r[n] == Digit(v, n - b)
    ensures Value(r, b, w) == v
    decreases w
  {
    if w > 0 {
      forall n | b + 1 <= n < b + w ensures r[n] == Digit(v / 2, n - (b + 1)) {
        assert r[n] == Digit(v, n - b);
      }
      ValueOfDigits(r, b + 1, w - 1, v / 2);
      assert r[b] == Digit(v, b - b);
    }
  }

  lemma {:induction false} NoHighDigits(v: nat, w: nat, n: nat)
    requires v < Pow2(w) && w <= n
    ensures !Digit(v, n)
    decreases n
  {
    if n > 0 {
      NoHighDigits(v / 2, if w == 0 then 0 else w - 1, n - 1);
    }
  }

  /** (r >> b) & m */
  function Field(r: Reg, m: Reg, b: nat): Reg {
    And(Shr(r, b), m)
  }

  /** (r & ~(m << b)) | (a << b) */
  function WithField(r: Reg, m: Reg, b: nat, a: Reg): Reg {
    Or(And(r, Not(Shl(m, b))), Shl(a, b))
  }

  /** The mask, shifted, does not lose bits. */
  ghost predicate Fits(m: Reg, b: nat) {
    forall n :: 0 <= n < 32 && m[n] ==> n + b < 32
  }

  /** Two shifted masks share no bit. */
  ghost predicate Apart(m: Reg, b: nat, m': Reg, b': nat) {
    And(Shl(m, b), Shl(m', b')) == Zero()
  }

  lemma FieldOfWithField(r: Reg, m: Reg, b: nat, a: Reg)
    requires And(a, Not(m)) == Zero() && Fits(m, b)
    ensures Field(WithField(r, m, b, a), m, b) == a
  {
    var x := Field(WithField(r, m, b, a), m, b);
    forall n | 0 <= n < 32 ensures x[n] == a[n] {
      assert And(a, Not(m))[n] == false;
    }
  }

  lemma OtherFieldKept(r: Reg, m: Reg, b: nat, a: Reg, m': Reg, b': nat)
    requires And(a, Not(m)) == Zero() && Apart(m, b, m', b')
    ensures Field(WithField(r, m, b, a), m', b') == Field(r, m', b')
  {
    var w := WithField(r, m, b, a);
    forall n | 0 <= n < 32 ensures Field(w, m', b')[n] == Field(r, m', b')[n] {
      if n + b' < 32 && m'[n] {
        assert And(Shl(m, b), Shl(m', b'))[n + b'] == false;
        if b <= n + b' { assert And(a, Not(m))[n + b' - b] == false; }
      }
    }
  }
}
