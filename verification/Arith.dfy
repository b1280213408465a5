/**
 Multiplication and division by repeated addition and subtraction, tied to Dafny's operators, so
 that the models built on them need no nonlinear arithmetic.
 */
module Arith {

  /** q * k */
  function Times(q: nat, k: nat): nat {
    if q == 0 then 0 else Times(q - 1, k) + k
  }

  /** n / k */
  function Quot(n: nat, k: nat): nat
    requires k > 0
  {
    if n < k then 0 else Quot(n - k, k) + 1
  }

  /** n is a multiple of k. */
  predicate Multiple(n: nat, k: nat)
    requires k > 0
  {
    if n < k then n == 0 else Multiple(n - k, k)
  }

  lemma {:induction false} TimesIsProduct(q: nat, k: nat)
    ensures Times(q, k) == q * k
  {
    if q > 0 { TimesIsProduct(q - 1, k); }
  }

  /** a * b, known not to be negative. */
  function Product(a: nat, b: nat): (p: nat)
    ensures p == a * b
  {
    TimesIsProduct(a, b);
    Times(a, b)
  }

  lemma {:induction false} QuotBounds(n: nat, k: nat)
    requires k > 0
    ensures Times(Quot(n, k), k) <= n < Times(Quot(n, k), k) + k
  {
    if n >= k { QuotBounds(n - k, k); }
  }

  lemma {:induction false} TimesOrder(p: nat, q: nat, k: nat)
    ensures p <= q ==> Times(p, k) <= Times(q, k)
    ensures p < q ==> Times(p, k) + k <= Times(q, k)
    decreases q
  {
    if q > 0 { TimesOrder(p, q - 1, k); }
  }

  lemma QuotUnique(n: nat, q: nat, k: nat)
    requires k > 0 && Times(q, k) <= n < Times(q, k) + k
    ensures Quot(n, k) == q
  {
    QuotBounds(n, k);
    TimesOrder(q, Quot(n, k), k);
    TimesOrder(Quot(n, k), q, k);
  }

  lemma QuotExactly(n: nat, q: nat, k: nat)
    requires k > 0
    ensures Quot(n, k) == q <==> Times(q, k) <= n < Times(q, k) + k
  {
    QuotBounds(n, k);
    if Times(q, k) <= n < Times(q, k) + k { QuotUnique(n, q, k); }
  }

  lemma QuotIsQuotient(n: nat, k: nat)
    requires k > 0
    ensures Quot(n, k) == n / k
  {
    TimesIsProduct(n / k, k);
    QuotUnique(n, n / k, k);
  }

  /** Which of the blocks of length k a position lies in. */
  lemma QuotBelow(n: nat, q: nat, k: nat)
    requires k > 0
    ensures Quot(n, k) < q <==> n < Times(q, k)
  {
    QuotBounds(n, k);
    TimesOrder(Quot(n, k), q, k);
    TimesOrder(q, Quot(n, k), k);
  }

  lemma {:induction false} MultipleIsTimes(n: nat, k: nat)
    requires k > 0 && Multiple(n, k)
    ensures n == Times(Quot(n, k), k)
  {
    if n >= k { MultipleIsTimes(n - k, k); }
  }

  /** The multiples of k up to n are those up to n rounded down. */
  lemma MultipleBelow(m: nat, n: nat, k: nat)
    requires k > 0 && Multiple(m, k) && m <= n
    ensures m <= Times(Quot(n, k), k)
  {
    MultipleIsTimes(m, k);
    QuotBelow(n, Quot(m, k), k);
    TimesOrder(Quot(m, k), Quot(n, k), k);
  }

  /** n rounded down to a multiple of k, as the kernel's rounddown writes it. */
  lemma RoundDown(n: nat, k: nat)
    requires k > 0
    ensures n - n % k == Times(Quot(n, k), k)
  {
    QuotIsQuotient(n, k);
    TimesIsProduct(n / k, k);
  }

  lemma ModSucc(n: nat, k: nat)
    requires n < k
    ensures (n + 1) % k == if n + 1 < k then n + 1 else 0
  {
  }
}
