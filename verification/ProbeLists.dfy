/** The two deferral lists of the driver core, as sequences of devices. */
module ProbeLists {

  type Device = nat

  /** deferred_trigger_count is an atomic_t: comparisons see 32 bits of it. */
  const COUNTER_SPAN: nat := 0x1_0000_0000

  ghost predicate NoDup(q: seq<Device>) {
    forall i, j :: 0 <= i < j < |q| ==> q[i] != q[j]
  }

  /** list_del_init: the list without `d`. */
  function Without(q: seq<Device>, d: Device): (r: seq<Device>)
    ensures forall e :: e in r <==> e in q && e != d
    ensures |r| <= |q|
    ensures d !in q ==> r == q
  {
    if q == [] then []
    else if q[0] == d then Without(q[1..], d)
    else [q[0]] + Without(q[1..], d)
  }

  lemma {:induction false} WithoutKeepsNoDup(q: seq<Device>, d: Device)
    requires NoDup(q)
    ensures NoDup(Without(q, d))
  {
    if q != [] {
      assert NoDup(q[1..]);
      WithoutKeepsNoDup(q[1..], d);
      assert q[0] !in q[1..];
    }
  }

  lemma {:induction false} WithoutOfConcat(p: seq<Device>, q: seq<Device>, d: Device)
    ensures Without(p + q, d) == Without(p, d) + Without(q, d)
  {
    if p == [] {
      assert p + q == q;
    } else {
      assert (p + q)[1..] == p[1..] + q;
      WithoutOfConcat(p[1..], q, d);
    }
  }

  /** A device is on one list only, and there once, exactly when the two lists laid end to end
      hold no device twice. */
  lemma NoDupConcat(p: seq<Device>, q: seq<Device>)
    ensures NoDup(p + q) <==> NoDup(p) && NoDup(q) && forall d :: d in p ==> d !in q
  {
    var r := p + q;
    if NoDup(r) {
      forall i, j | 0 <= i < j < |p| ensures p[i] != p[j] { assert r[i] == p[i] && r[j] == p[j]; }
      forall i, j | 0 <= i < j < |q| ensures q[i] != q[j] { assert r[|p| + i] == q[i] && r[|p| + j] == q[j]; }
      forall i, j | 0 <= i < |p| && 0 <= j < |q| ensures p[i] != q[j] { assert r[i] == p[i] && r[|p| + j] == q[j]; }
    }
    if NoDup(p) && NoDup(q) && forall d :: d in p ==> d !in q {
      forall i, j | 0 <= i < j < |r| ensures r[i] != r[j] {
        if i < |p| <= j { assert r[i] in p && r[j] in q; }
      }
    }
  }
}
