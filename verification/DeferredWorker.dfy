/**
 The retry machinery of deferred probing when the worker alone runs it: the lists, the trigger
 and the work function as one object updated in place. A probe binds a device once all its
 suppliers are bound, unless its driver reports another error; binds are not revoked.
 */
module DeferredWorker {
  import opened ProbeLists

  /** What each device's probe asks for, and the devices whose probe then fails for good. */
  datatype Wiring = Wiring(suppliers: map<Device, set<Device>>, broken: set<Device>)
  {
    function Needs(d: Device): set<Device> {
      if d in suppliers then suppliers[d] else {}
    }

    /** `x` holds every device of `devs` that works and finds its suppliers in `x`. */
    ghost predicate Closed(devs: set<Device>, x: set<Device>) {
      forall d :: d in devs && d !in broken && Needs(d) <= x ==> d in x
    }

    /** `x` is the least set above `base` that is closed. */
    ghost predicate Least(devs: set<Device>, base: set<Device>, x: set<Device>) {
      && base <= x && Closed(devs, x)
      && forall y :: base <= y && Closed(devs, y) ==> x <= y
    }
  }

  /** The least closed set does not depend on how it was computed, so neither on list order. */
  lemma LeastIsUnique(w: Wiring, devs: set<Device>, base: set<Device>, x: set<Device>, y: set<Device>)
    requires w.Least(devs, base, x) && w.Least(devs, base, y)
    ensures x == y
  {
    assert x <= y && y <= x;
  }

  /** The devices on either list. */
  function Either(p: seq<Device>, a: seq<Device>): (r: set<Device>)
    ensures forall d :: d in r <==> d in p || d in a
  {
    (set d | d in p) + (set d | d in a)
  }

  class Core {
    const wiring: Wiring
    var pending: seq<Device>
    var active: seq<Device>
    var bound: set<Device>
    var triggerCount: nat
    var enable: bool
    var deferAll: bool
    var queued: bool

    constructor (w: Wiring)
      ensures wiring == w && pending == [] && active == [] && bound == {} && !enable && !deferAll && !queued
      ensures triggerCount == 0
    {
      wiring := w;
      pending, active, bound, triggerCount := [], [], {}, 0;
      enable, deferAll, queued := false, false, false;
    }

    function Listed(): (r: set<Device>)
      reads this
      ensures forall d :: d in r <==> d in pending || d in active
    {
      Either(pending, active)
    }

    ghost predicate Valid()
      reads this
    {
      NoDup(pending + active) && triggerCount < COUNTER_SPAN
    }

    /** A device that is not bound and misses a supplier. */
    predicate Waiting(d: Device)
      reads this
    {
      d !in bound && !(wiring.Needs(d) <= bound)
    }

    /** A device that a probe would bind. */
    predicate Ready(d: Device)
      reads this
    {
      d !in bound && d !in wiring.broken && wiring.Needs(d) <= bound
    }

    /** driver_deferred_probe_add */
    method Add(d: Device)
      requires Valid()
      modifies this`pending
      ensures Valid()
      ensures pending == if d in old(Listed()) then old(pending) else old(pending) + [d]
    {
      if d !in pending && d !in active {
        NoDupConcat(pending, active);
        pending := pending + [d];
        NoDupConcat(pending, active);
      }
    }

    /** driver_deferred_probe_del */
    method Del(d: Device)
      requires Valid()
      modifies this`pending, this`active
      ensures Valid()
      ensures pending == Without(old(pending), d) && active == Without(old(active), d)
    {
      WithoutOfConcat(pending, active, d);
      WithoutKeepsNoDup(pending + active, d);
      pending, active := Without(pending, d), Without(active, d);
    }

    /** driver_deferred_probe_trigger */
    method Trigger()
      requires Valid()
      modifies this`pending, this`active, this`triggerCount, this`queued
      ensures Valid() && Listed() == old(Listed())
      ensures !enable ==> unchanged(this)
      ensures enable ==>
        && pending == [] && active == old(active) + old(pending) && queued
        && triggerCount == (old(triggerCount) + 1) % COUNTER_SPAN
    {
      if !enable { return; }
      NoDupConcat(pending, active);
      NoDupConcat(active, pending);
      triggerCount := (triggerCount + 1) % COUNTER_SPAN;
      active, pending := active + pending, [];
      assert pending + active == active;
      queued := true;
    }

    /** driver_probe_device, for any device and at any time. */
    method ProbeDevice(d: Device)
      requires Valid()
      modifies this`pending, this`active, this`bound, this`triggerCount, this`queued
      ensures Valid()
      ensures bound == if !deferAll && old(Ready(d)) then old(bound) + {d} else old(bound)
      ensures !deferAll && old(Ready(d)) ==>
        var p, a := Without(old(pending), d), Without(old(active), d);
        if enable then pending == [] && active == a + p && queued else pending == p && active == a
      ensures deferAll || !old(Ready(d)) ==>
        active == old(active) && triggerCount == old(triggerCount) && queued == old(queued)
      ensures deferAll || !old(Ready(d)) ==>
        var defers := old(Waiting(d)) || (deferAll && d !in old(bound));
        pending == old(pending) + if defers && d !in old(Listed()) then [d] else []
    {
      if d in bound { return; }
      ghost var snap := triggerCount;
      if deferAll || !(wiring.Needs(d) <= bound) {
        Add(d);
        // Only this thread runs: the counter reads the same again and there is no second trigger.
        assert triggerCount == snap;
      } else if d !in wiring.broken {
        bound := bound + {d};
        Del(d);
        Trigger();
      }
    }

    /** What holds each time round the loop of deferred_probe_work_func, for the lists `p` and `a` and the set `base`
        that was bound when it started. Pending devices are retried once something has been bound. */
    ghost predicate Progress(p: seq<Device>, a: seq<Device>, base: set<Device>)
      reads this
    {
      var devs := Either(p, a);
      && Valid() && enable && !deferAll && Listed() <= devs && base <= bound <= base + devs
      && (forall d :: d in devs ==> d in Listed() || d in bound || (d in wiring.broken && wiring.Needs(d) <= bound))
      && (forall d :: d in pending ==> Waiting(d) || (bound == base && d in p))
      && (bound == base ==> forall d :: d in p ==> d in pending)
      && (forall y :: base <= y && wiring.Closed(devs, y) ==> bound <= y)
    }

    /** The same while probing is blocked: what was taken off the active list and is not bound is pending. */
    ghost predicate PutBack(p: seq<Device>, a: seq<Device>, base: set<Device>)
      reads this
    {
      && Valid() && deferAll && bound == base && (forall d :: d in active ==> d in a)
      && forall d :: d in pending <==> d in p || (d in a && d !in active && d !in bound)
    }

    /** One round: the first device of the active list is probed. */
    method RetryFirst(ghost p: seq<Device>, ghost a: seq<Device>, ghost base: set<Device>)
      requires (if deferAll then PutBack(p, a, base) else Progress(p, a, base)) && active != []
      modifies this`pending, this`active, this`bound, this`triggerCount, this`queued
      ensures if deferAll then PutBack(p, a, base) else Progress(p, a, base)
      ensures old(bound) <= bound && (bound == old(bound) ==> |active| < |old(active)|)
    {
      var dev := active[0];
      NoDupConcat(pending, active);
      NoDupConcat(pending, active[1..]);
      assert active == [dev] + active[1..];
      ghost var before := Listed();
      active := active[1..];
      assert before == Listed() + {dev};
      ProbeDevice(dev);
    }

    /** deferred_probe_work_func, run alone, terminates. Unless probing is blocked, what is bound afterwards is the
        least closed set over the listed devices and what is pending is exactly what misses a supplier, provided that
        something was bound or that no pending device could have been bound; otherwise nothing that was active
        could be bound and the pending devices have not been retried. */
    method WorkFunc()
      requires Valid() && enable
      modifies this`pending, this`active, this`bound, this`triggerCount, this`queued
      ensures Valid() && active == []
      ensures !deferAll && (bound != old(bound) || forall d :: d in old(pending) ==> !old(Ready(d))) ==>
        wiring.Least(old(Listed()), old(bound), bound)
      ensures !deferAll && bound != old(bound) ==> forall d :: d in pending <==> d in old(Listed()) && Waiting(d)
      ensures !deferAll && bound == old(bound) ==>
        && (forall d :: d in old(active) ==> !old(Ready(d)))
        && (forall d :: d in pending <==> d in old(pending) || (d in old(active) && Waiting(d)))
      ensures deferAll ==>
        && bound == old(bound)
        && forall d :: d in pending <==> d in old(pending) || (d in old(active) && d !in bound)
    {
      ghost var p, a, base := pending, active, bound;
      NoDupConcat(p, a);
      while active != []
        invariant if deferAll then PutBack(p, a, base) else Progress(p, a, base)
        decreases Either(p, a) - bound, |active|
      {
        RetryFirst(p, a, base);
      }
    }

    /** The enabling half of deferred_probe_initcall: everything listed is retried to the end. */
    method EnableAndFlush()
      requires Valid()
      modifies this
      ensures Valid() && enable && active == [] && deferAll == old(deferAll)
      ensures !deferAll ==> wiring.Least(old(Listed()), old(bound), bound)
      ensures forall d :: d in pending <==>
        d in old(Listed()) && d !in bound && (deferAll || !(wiring.Needs(d) <= bound))
    {
      enable := true;
      Trigger();
      WorkFunc();
    }
  }
}
