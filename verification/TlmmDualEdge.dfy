/** Dual-edge emulation for an interrupt whose parent catches one edge at a time, against a line that
    may change at any moment between two register accesses. */
module TlmmDualEdge {
  import opened TlmmIrq

  datatype Edge = Rise | Fall

  /** The level of the line at each moment. */
  type Line = nat -> bool

  /** The edge that a change away from a level makes. */
  function AwayFrom(level: bool): Edge { if level then Fall else Rise }

  /** The line changes at moment `e`, and this is the edge it makes. */
  ghost predicate EdgeAt(line: Line, e: nat, x: Edge) {
    e > 0 && line(e - 1) != line(e) && x == AwayFrom(line(e - 1))
  }

  /** A rising edge goes from low to high, a falling edge from high to low. */
  lemma EdgeMeans(line: Line, e: nat)
    ensures EdgeAt(line, e, Rise) <==> e > 0 && !line(e - 1) && line(e)
    ensures EdgeAt(line, e, Fall) <==> e > 0 && line(e - 1) && !line(e)
  {
  }

  /** Once the line differs from what it was at `from`, an edge of the armed kind has happened since, and
      it was the first edge since. */
  ghost predicate Complete(line: Line, armed: Edge, from: nat) {
    forall t :: from <= t && line(t) != line(from) ==>
      exists e :: from < e <= t && EdgeAt(line, e, armed) && forall u :: from <= u < e ==> line(u) == line(from)
  }

  lemma FirstChange(line: Line, from: nat, t: nat) returns (e: nat)
    requires from <= t && line(t) != line(from)
    ensures from < e <= t && EdgeAt(line, e, AwayFrom(line(from)))
    ensures forall u :: from <= u < e ==> line(u) == line(from)
  {
    e := from + 1;
    while line(e) == line(from)
      invariant from < e <= t && forall u :: from <= u < e ==> line(u) == line(from)
      decreases t - e
    {
      e := e + 1;
    }
  }

  /** What is armed is complete if it is the edge away from the level. If it is the other edge, the first
      change after `from`, should there be one, goes by unseen: armed is complete only if the line never
      changes again. */
  lemma CompleteExactly(line: Line, armed: Edge, from: nat)
    ensures Complete(line, armed, from) <==>
      armed == AwayFrom(line(from)) || forall t :: from <= t ==> line(t) == line(from)
  {
    if armed == AwayFrom(line(from)) {
      forall t | from <= t && line(t) != line(from)
        ensures exists e ::
          from < e <= t && EdgeAt(line, e, armed) && forall u :: from <= u < e ==> line(u) == line(from)
      {
        var e := FirstChange(line, from, t);
      }
    }
  }

  /** The moments of the register accesses: 0 is the first read, then an arming and a read each round. */
  ghost predicate Ordered(at: nat -> nat) {
    forall k: nat :: at(k) < at(k + 1)
  }

  /** msm_gpio_update_dual_edge_parent. It succeeds exactly when, within the loop limit, two successive
      reads see the same level; then the armed edge is the one away from that level, it was armed before
      the later read, and from that read on the arming is complete. */
  method UpdateDualEdgeParent(line: Line, at: nat -> nat) returns (ok: bool, armed: Edge, armedAt: nat, readAt: nat)
    requires Ordered(at)
    ensures armedAt < readAt && exists k :: 1 <= k <= 101 && readAt == at(2 * k) && armedAt == at(2 * k - 1)
    ensures ok <==> exists k :: 1 <= k <= 101 && line(at(2 * k)) == line(at(2 * k - 2))
    ensures ok ==> armed == AwayFrom(line(readAt)) && Complete(line, armed, readAt)
    ensures !ok ==> armed != AwayFrom(line(readAt))
  {
    var val := line(at(0));
    var kind := AwayFrom(val);
    var limit := 100;
    ghost var k := 0;
    while true
      invariant 0 <= k && k + limit == 100 && limit >= 0 && kind == AwayFrom(line(at(2 * k)))
      invariant forall j :: 1 <= j <= k ==> line(at(2 * j)) != line(at(2 * j - 2))
      decreases limit
    {
      var step := 100 - limit;
      armed, armedAt := kind, at(2 * step + 1);
      readAt := at(2 * step + 2);
      val := line(readAt);
      k := k + 1;
      assert readAt == at(2 * k) && armedAt == at(2 * k - 1);
      if kind == Rise {
        if !val {
          CompleteExactly(line, armed, readAt);
          return true, armed, armedAt, readAt;
        }
        kind := Fall;
      } else {
        if val {
          CompleteExactly(line, armed, readAt);
          return true, armed, armedAt, readAt;
        }
        kind := Rise;
      }
      if limit == 0 { return false, armed, armedAt, readAt; }
      limit := limit - 1;
    }
  }
}
