/** Nobody is stuck and nothing goes on for ever: once nothing new begins, every schedule comes to rest. */
module DeferredProbeSettles {
  import opened ProbeLists
  import opened DeferredProbe
  import opened DeferredProbeSafety
  import opened DeferredProbeTheorems

  // ---------------------------------------------------------------- nobody stuck

  /** A step of a thread that is under way already. */
  predicate UnderWay(t: Step) {
    match t
    case Probe(_, _) => true
    case Leave(_) => true
    case Trig(_, _) => true
    case Work(_) => true
    case Pause(g) => g.Flushed? || g.Drained?
    case MatchDefer(_) => true
    case _ => false
  }

  /** None of those threads can go on. */
  ghost predicate Stuck(c: Config, s: State) {
    forall t :: UnderWay(t) ==> !Can(c, s, t)
  }

  /** Such a step, and not a failure that a callback is free to report. */
  predicate Willing(t: Step) {
    UnderWay(t) && !(t.Probe? && (t.m.Fail? || t.m.Abort?))
  }

  /** The power-management thread is not waiting. */
  predicate Settled(g: Gate) { g.Open? || g.Closed? }

  /** Nothing is in flight, and nobody waits for the work to be flushed or for probes to drain. */
  predicate Quiet(s: State) {
    s.probes == map[] && s.triggers == map[] && s.matching == {} && s.worker.Sleeping? && !s.queued && Settled(s.gate)
  }

  lemma ProbeMoves(s: State, d: Device) returns (m: Move)
    requires d in s.probes && !s.probes[d].stage.Leaving? && At(d) !in s.triggers
    ensures CanMove(s, s.probes[d], d, m) && !m.Fail? && !m.Abort?
  {
    match s.probes[d].stage
    case Snapped(_) => m := Raise;
    case Entered(_) => m := if d in s.bound || d in s.gone then Reject else if s.deferAll then Force else Pass;
    case Probing(_, todo) =>
      if todo == {} {
        m := Bind;
      } else {
        var x :| x in todo;
        m := if x in s.bound then Found(x) else Missing(x, false);
      }
    case Bound => m := Unlist;
    case Deferring(_, _) => m := Add;
    case Added(_, _) => m := Recheck;
    case Moved(_) => m := Retrigger;
  }

  lemma TriggerMoves(s: State, site: Site) returns (k: TriggerMove)
    requires site in s.triggers
    ensures CanTrig(s, site, k)
  {
    k := match s.triggers[site] case Check => Test case Armed => Splice case Spliced => Queue;
  }

  lemma WorkerMoves(s: State) returns (w: WorkerMove)
    requires s.probes == map[] && (!s.worker.Sleeping? || s.queued)
    ensures CanWork(s, w)
  {
    match s.worker
    case Sleeping => w := Wake;
    case Looping => w := if s.active == [] then Sleep else Pop;
    case Retrying(_, todo) => if todo == {} { w := Done; } else { var r :| r in todo; w := Try(r); }
  }

  lemma NeverStuck(c: Config, s: State) returns (t: Step)
    requires Inv(c, s) && !Quiet(s)
    ensures Willing(t) && Can(c, s, t)
  {
    hide ListInv, WorkerInv, GateInv, AskedInv, RetryInv, OwedInv, CanMove, CanTrig, CanWork;
    if site :| site in s.triggers {
      var k := TriggerMoves(s, site);
      t := Trig(site, k);
    } else if d :| d in s.probes {
      if s.probes[d].stage.Leaving? {
        t := Leave(d);
      } else {
        var m := ProbeMoves(s, d);
        t := Probe(d, m);
      }
    } else if miss :| miss in s.matching {
      t := MatchDefer(miss);
    } else if !s.worker.Sleeping? || s.queued {
      var w := WorkerMoves(s);
      t := Work(w);
    } else {
      assert CountedProbes(s.probes) == {};
      t := Pause(if s.gate.Draining? then Drained else Flushed);
    }
  }

  /** Nobody is stuck: in every reachable state in which something is in flight, one of the threads under way can
      take its next step, without anything new beginning and without a callback failing. In particular
      device_block_probing does not wait for a probe that waits for it. */
  lemma SomeoneCanMove(c: Config, ts: seq<Step>, s: State) returns (t: Step)
    requires Exec(c, Init(), ts, s) && !Quiet(s)
    ensures Willing(t) && Can(c, s, t)
  {
    InvAlong(c, Init(), ts, s);
    t := NeverStuck(c, s);
  }

  // ---------------------------------------------------------------- sizes

  lemma {:induction false} SubsetSize<T>(a: set<T>, b: set<T>)
    requires a <= b
    ensures |a| <= |b|
    decreases b
  {
    if b != {} {
      var x :| x in b;
      SubsetSize(a - {x}, b - {x});
      assert a == if x in a then a - {x} + {x} else a - {x};
    }
  }

  lemma SmallerSize<T>(a: set<T>, b: set<T>, x: T)
    requires a <= b && x in b && x !in a
    ensures |a| < |b|
  {
    SubsetSize(a, b - {x});
  }

  /** How far an attempt is from its end. */
  function Distance(c: Config, d: Device, a: Attempt): nat {
    match a.stage
    case Snapped(_) => 8 + |c.Needs(a.drv, d)|
    case Entered(_) => 7 + |c.Needs(a.drv, d)|
    case Probing(_, todo) => 6 + |todo|
    case Bound => 5
    case Deferring(_, _) => 5
    case Added(_, _) => 4
    case Moved(_) => 3
    case Leaving(_) => 1
  }

  ghost function Distances(c: Config, p: map<Device, Attempt>): nat
    decreases |p|
  {
    if p == map[] then 0
    else
      var d :| d in p;
      assert |p - {d}| < |p| by { OneLess(p, d); }
      Distance(c, d, p[d]) + Distances(c, p - {d})
  }

  lemma OneLess(p: map<Device, Attempt>, d: Device)
    requires d in p
    ensures |p - {d}| == |p| - 1
  {
    assert (p - {d}).Keys == p.Keys - {d};
    assert |p.Keys| == |p| && |(p - {d}).Keys| == |p - {d}|;
  }

  lemma {:induction false} DistancesPick(c: Config, p: map<Device, Attempt>, d: Device)
    requires d in p
    ensures Distances(c, p) == Distance(c, d, p[d]) + Distances(c, p - {d})
    decreases |p|
  {
    var e :| e in p && Distances(c, p) == Distance(c, e, p[e]) + Distances(c, p - {e});
    if e != d {
      OneLess(p, e);
      OneLess(p, d);
      DistancesPick(c, p - {e}, d);
      DistancesPick(c, p - {d}, e);
      assert p - {e} - {d} == p - {d} - {e};
    }
  }

  lemma DistancesMove(c: Config, p: map<Device, Attempt>, d: Device, a: Attempt)
    requires d in p
    ensures Distances(c, p[d := a]) == Distances(c, p) - Distance(c, d, p[d]) + Distance(c, d, a)
  {
    DistancesPick(c, p, d);
    DistancesPick(c, p[d := a], d);
    assert p[d := a] - {d} == p - {d};
  }

  // ---------------------------------------------------------------- what is still to come

  /** The devices that threads under way can still reach. */
  function Known(s: State): set<Device> {
    s.probes.Keys + (set miss | miss in s.matching :: miss.d) + (set d | d in s.pending) + (set d | d in s.active) +
    if s.worker.Retrying? then {s.worker.d} else {}
  }

  function Unbound(s: State): set<Device> { Known(s) - s.bound }

  /** A trigger call belongs to the attempt that makes it. */
  ghost predicate CallInv(s: State) {
    forall d :: At(d) in s.triggers ==> d in s.probes && s.probes[d].stage.Leaving?
  }

  /** Attempts of other threads that may still make a trigger call. */
  function Others(p: map<Device, Attempt>): set<Device> {
    set d | d in p && !p[d].entry.Retry? && !p[d].stage.Leaving?
  }

  /** A retry whose re-check is bound to see that the counter, now `n`, has moved, or that is past it or bound. */
  predicate Dirty(n: nat, a: Attempt) {
    a.entry.Retry? &&
    match a.stage
    case Snapped(m) => m != n
    case Entered(m) => m != n
    case Probing(m, _) => m != n
    case Deferring(m, _) => m != n
    case Added(m, _) => m != n
    case Moved(_) => true
    case Bound => true
    case Leaving(_) => false
  }

  function Dirties(p: map<Device, Attempt>, n: nat): set<Device> {
    set d | d in p && Dirty(n, p[d])
  }

  predicate OfRetry(p: map<Device, Attempt>, site: Site) {
    site.At? && site.d in p && p[site.d].entry.Retry?
  }

  /** The trigger calls that have still to splice: the worker's own, and all others. */
  function Own(p: map<Device, Attempt>, calls: map<Site, Trigger>): set<Site> {
    set site | site in calls && !calls[site].Spliced? && OfRetry(p, site)
  }

  function Foreign(p: map<Device, Attempt>, calls: map<Site, Trigger>): set<Site> {
    set site | site in calls && !calls[site].Spliced? && !OfRetry(p, site)
  }

  /** How many splices are still to come, at most: another thread's splice can make one retry dirty, and a dirty
      retry makes one call of its own. */
  function Splices(p: map<Device, Attempt>, n: nat, calls: map<Site, Trigger>): nat {
    4 * |Others(p)| + 3 * |Foreign(p, calls)| + 2 * |Dirties(p, n)| + |Own(p, calls)|
  }

  function Ahead(s: State): nat { Splices(s.probes, s.count, s.triggers) }

  function SplicedCalls(calls: map<Site, Trigger>): set<Site> { set site | site in calls && calls[site].Spliced? }

  function UntestedCalls(calls: map<Site, Trigger>): set<Site> { set site | site in calls && calls[site].Check? }

  /** What the worker has been asked to do. */
  function Asked(s: State): nat {
    6 * |SplicedCalls(s.triggers)| + (if s.queued then 3 else 0) +
    (match s.worker case Sleeping => 0 case Looping => 1 case Retrying(_, _) => 2)
  }

  function Todo(w: Worker): nat { if w.Retrying? then |w.todo| else 0 }

  ghost function Footwork(c: Config, s: State): nat {
    Distances(c, s.probes) + |UntestedCalls(s.triggers)| +
    (if s.gate.Flushing? then 2 else if s.gate.Draining? then 1 else 0)
  }

  /** What is still to come, the weightiest first: devices to bind, match deferrals, splices, the active list, what
      is asked of the worker, drivers ahead of it, footwork. */
  datatype Rank = Rank(unbound: nat, matching: nat, splices: nat, active: nat, asked: nat, todo: nat, footwork: nat)
  {
    predicate Below(r: Rank) {
      || unbound < r.unbound
      || (unbound == r.unbound && (
      || matching < r.matching
      || (matching == r.matching && (
      || splices < r.splices
      || (splices == r.splices && (
      || active < r.active
      || (active == r.active && (
      || asked < r.asked
      || (asked == r.asked && (todo < r.todo || (todo == r.todo && footwork < r.footwork)))))))))))
    }
  }

  ghost function RankOf(c: Config, s: State): Rank {
    Rank(|Unbound(s)|, |s.matching|, Ahead(s), |s.active|, Asked(s), Todo(s.worker), Footwork(c, s))
  }

  // ---------------------------------------------------------------- calls belong to attempts

  lemma CallProbe(c: Config, s: State, d: Device, m: Move)
    requires CallInv(s) && Can(c, s, Probe(d, m))
    ensures CallInv(DoProbe(c, s, d, m))
  {
    hide Del, AddTail;
  }

  lemma CallWork(c: Config, s: State, w: WorkerMove)
    requires CallInv(s) && CanWork(s, w)
    ensures CallInv(DoWork(c, s, w))
  {
    hide AddByMatch;
  }

  lemma CallPause(s: State, g: GateMove)
    requires CallInv(s) && CanPause(s, g)
    ensures CallInv(DoPause(s, g))
  {
  }

  lemma CallEnds(c: Config, s: State, t: Step)
    requires CallInv(s) && Can(c, s, t) && (t.Snap? || t.Attach? || t.Leave?)
    ensures CallInv(DoEnds(s, t))
  {
    hide AfterLeave;
  }

  lemma CallStep(c: Config, s: State, t: Step)
    requires CallInv(s) && Can(c, s, t)
    ensures CallInv(Do(c, s, t))
  {
    hide DoProbe, DoWork, DoPause, DoEnds, DoDevice;
    match t
    case Probe(d, m) => CallProbe(c, s, d, m);
    case Work(w) => CallWork(c, s, w);
    case Pause(_) => CallPause(s, t.g);
    case _ => if t.Snap? || t.Attach? || t.Leave? { CallEnds(c, s, t); }
  }

  lemma {:induction false} CallAlong(c: Config, s: State, ts: seq<Step>, s': State)
    requires CallInv(s) && Exec(c, s, ts, s')
    ensures CallInv(s')
    decreases |ts|
  {
    hide CallInv, Do;
    if ts != [] {
      CallStep(c, s, ts[0]);
      CallAlong(c, Do(c, s, ts[0]), ts[1..], s');
    }
  }

  // ---------------------------------------------------------------- devices to bind

  lemma UnboundShrinks(s: State, s': State)
    requires Known(s') <= Known(s) && s.bound <= s'.bound
    ensures |Unbound(s')| <= |Unbound(s)|
  {
    SubsetSize(Unbound(s'), Unbound(s));
  }

  lemma ListedAfter(c: Config, s: State, e: Device, m: Move, d: Device)
    requires Can(c, s, Probe(e, m)) && DoProbe(c, s, e, m).Listed(d)
    ensures s.Listed(d) || (d == e && m.Add?)
  {
    hide Next, CanMove;
  }

  lemma BoundAfter(c: Config, s: State, d: Device, m: Move)
    requires Can(c, s, Probe(d, m))
    ensures DoProbe(c, s, d, m).bound == if m.Bind? then s.bound + {d} else s.bound
  {
    hide Next, CanMove, Del, AddTail;
  }

  lemma KnownProbe(c: Config, s: State, d: Device, m: Move)
    requires Can(c, s, Probe(d, m))
    ensures Known(DoProbe(c, s, d, m)) <= Known(s) && s.bound <= DoProbe(c, s, d, m).bound
  {
    hide DoProbe, CanMove;
    var s' := DoProbe(c, s, d, m);
    BoundAfter(c, s, d, m);
    assert s'.probes.Keys == s.probes.Keys;
    forall e | e in Known(s') ensures e in Known(s) {
      if s'.Listed(e) { ListedAfter(c, s, d, m, e); }
    }
  }

  lemma UnboundProbe(c: Config, s: State, d: Device, m: Move)
    requires Can(c, s, Probe(d, m))
    ensures Known(DoProbe(c, s, d, m)) <= Known(s)
    ensures |Unbound(DoProbe(c, s, d, m))| <= |Unbound(s)|
  {
    KnownProbe(c, s, d, m);
    hide DoProbe, CanMove, Known;
    UnboundShrinks(s, DoProbe(c, s, d, m));
  }

  lemma InProbes(s: State, d: Device)
    requires d in s.probes
    ensures d in Known(s)
  {
  }

  lemma BindLowers(c: Config, s: State, d: Device)
    requires ListInv(s) && Can(c, s, Probe(d, Bind))
    ensures |Unbound(DoProbe(c, s, d, Bind))| < |Unbound(s)|
  {
    hide NoDup, Known;
    UnboundProbe(c, s, d, Bind);
    InProbes(s, d);
    SmallerSize(Unbound(DoProbe(c, s, d, Bind)), Unbound(s), d);
  }

  lemma UnboundWork(c: Config, s: State, w: WorkerMove)
    requires CanWork(s, w)
    ensures |Unbound(DoWork(c, s, w))| <= |Unbound(s)|
  {
    var s' := DoWork(c, s, w);
    if w.Pop? { assert s.active == [s.active[0]] + s.active[1..]; }
    assert Known(s') <= Known(s);
    UnboundShrinks(s, s');
  }

  lemma UnboundTrig(s: State, site: Site, k: TriggerMove)
    requires CanTrig(s, site, k)
    ensures |Unbound(DoTrig(s, site, k))| <= |Unbound(s)|
  {
    assert Known(DoTrig(s, site, k)) <= Known(s);
    UnboundShrinks(s, DoTrig(s, site, k));
  }

  lemma UnboundLeave(c: Config, s: State, d: Device)
    requires Can(c, s, Leave(d))
    ensures |Unbound(DoEnds(s, Leave(d)))| <= |Unbound(s)|
  {
    hide AfterLeave;
    UnboundShrinks(s, DoEnds(s, Leave(d)));
  }

  lemma UnboundMatch(c: Config, s: State, miss: Miss)
    requires Can(c, s, MatchDefer(miss))
    ensures |Unbound(DoDevice(s, MatchDefer(miss)))| <= |Unbound(s)|
  {
    assert Known(DoDevice(s, MatchDefer(miss))) <= Known(s);
    UnboundShrinks(s, DoDevice(s, MatchDefer(miss)));
  }

  // ---------------------------------------------------------------- splices

  lemma CallListed(p: map<Device, Attempt>, calls: map<Site, Trigger>, d: Device, p': map<Device, Attempt>,
      calls': map<Site, Trigger>)
    requires d in p && d in p' && p'[d].entry == p[d].entry && p' == p[d := p'[d]]
    requires At(d) !in calls && (calls' == calls || calls' == calls[At(d) := Check])
    ensures if p[d].entry.Retry?
            then Foreign(p', calls') == Foreign(p, calls) && Own(p', calls') <= Own(p, calls) + {At(d)}
            else Own(p', calls') == Own(p, calls) && Foreign(p', calls') <= Foreign(p, calls) + {At(d)}
  {
  }

  /** A retry makes its call: it counts for less as a call than it did as a dirty attempt. */
  lemma RetryCalls(p: map<Device, Attempt>, n: nat, calls: map<Site, Trigger>, d: Device, stop: bool,
      calls': map<Site, Trigger>)
    requires d in p && Dirty(n, p[d]) && At(d) !in calls && (calls' == calls || calls' == calls[At(d) := Check])
    ensures Splices(p[d := p[d].(stage := Leaving(stop))], n, calls') < Splices(p, n, calls)
  {
    var p' := p[d := p[d].(stage := Leaving(stop))];
    assert Dirties(p', n) == Dirties(p, n) - {d} && d in Dirties(p, n);
    assert Others(p') == Others(p);
    CallListed(p, calls, d, p', calls');
    hide Others, Dirties, Own, Foreign, OfRetry;
    SubsetSize(Own(p', calls'), Own(p, calls) + {At(d)});
  }

  /** So does any other thread. */
  lemma OtherCalls(p: map<Device, Attempt>, n: nat, calls: map<Site, Trigger>, d: Device, stop: bool,
      calls': map<Site, Trigger>)
    requires d in Others(p) && At(d) !in calls && (calls' == calls || calls' == calls[At(d) := Check])
    ensures Splices(p[d := p[d].(stage := Leaving(stop))], n, calls') < Splices(p, n, calls)
  {
    var p' := p[d := p[d].(stage := Leaving(stop))];
    assert Others(p') == Others(p) - {d};
    assert Dirties(p', n) == Dirties(p, n);
    CallListed(p, calls, d, p', calls');
    hide Others, Dirties, Own, Foreign, OfRetry;
    SubsetSize(Foreign(p', calls'), Foreign(p, calls) + {At(d)});
  }

  lemma CallMade(c: Config, s: State, d: Device, m: Move)
    requires Can(c, s, Probe(d, m)) && (m.Unlist? || m.Retrigger?)
    ensures Ahead(DoProbe(c, s, d, m)) < Ahead(s)
  {
    hide Del, Splices;
    var s' := DoProbe(c, s, d, m);
    var stop := s'.probes[d].stage.stop;
    if s.probes[d].entry.Retry? { RetryCalls(s.probes, s.count, s.triggers, d, stop, s'.triggers); }
    else { OtherCalls(s.probes, s.count, s.triggers, d, stop, s'.triggers); }
  }

  /** A move that makes no call and does not bind brings no splice nearer. */
  lemma MoveKeeps(p: map<Device, Attempt>, n: nat, calls: map<Site, Trigger>, d: Device, a: Attempt)
    requires d in p && a.entry == p[d].entry && (Dirty(n, a) ==> Dirty(n, p[d])) && !p[d].stage.Leaving?
    ensures Splices(p[d := a], n, calls) <= Splices(p, n, calls)
  {
    var p' := p[d := a];
    assert Others(p') <= Others(p) && Dirties(p', n) <= Dirties(p, n) && Foreign(p', calls) == Foreign(p, calls) &&
      Own(p', calls) == Own(p, calls);
    SubsetSize(Others(p'), Others(p));
    SubsetSize(Dirties(p', n), Dirties(p, n));
  }

  lemma QuietMove(c: Config, s: State, d: Device, m: Move)
    requires Can(c, s, Probe(d, m)) && !m.Unlist? && !m.Retrigger? && !m.Bind?
    ensures Ahead(DoProbe(c, s, d, m)) <= Ahead(s)
  {
    hide Del, AddTail, Splices;
    MoveKeeps(s.probes, s.count, s.triggers, d, DoProbe(c, s, d, m).probes[d]);
  }

  lemma OneRetry(c: Config, s: State)
    requires RetryInv(c, s)
    ensures |Dirties(s.probes, s.count)| <= 1
  {
    if s.worker.Retrying? {
      SubsetSize(Dirties(s.probes, s.count), {s.worker.d});
    } else {
      assert Dirties(s.probes, s.count) == {};
    }
  }

  lemma NoDirty(c: Config, s: State, d: Device, n: nat)
    requires RetryInv(c, s) && d in s.probes && s.probes[d].entry.Retry? && s.probes[d].stage.Leaving?
    ensures Dirties(s.probes, n) == {}
  {
  }

  lemma CallSplices(p: map<Device, Attempt>, calls: map<Site, Trigger>, site: Site)
    requires site in calls && !calls[site].Spliced?
    ensures var calls' := calls[site := Spliced];
      if OfRetry(p, site) then |Own(p, calls')| == |Own(p, calls)| - 1 && Foreign(p, calls') == Foreign(p, calls)
      else |Foreign(p, calls')| == |Foreign(p, calls)| - 1 && Own(p, calls') == Own(p, calls)
  {
    var calls' := calls[site := Spliced];
    var own, foreign := Own(p, calls), Foreign(p, calls);
    if OfRetry(p, site) {
      assert Own(p, calls') == own - {site} && Foreign(p, calls') == foreign;
      assert site in own;
    } else {
      assert Foreign(p, calls') == foreign - {site} && Own(p, calls') == own;
      assert site in foreign;
    }
  }

  /** A call that goes through its critical section: one splice less, at most one retry more that will see it. */
  lemma SpliceLowers(c: Config, s: State, site: Site)
    requires CallInv(s) && RetryInv(c, s) && CanTrig(s, site, Splice)
    ensures Ahead(DoTrig(s, site, Splice)) < Ahead(s)
  {
    hide RetryInv, Others, Dirties, Own, Foreign;
    var s' := DoTrig(s, site, Splice);
    CallSplices(s.probes, s.triggers, site);
    if OfRetry(s.probes, site) {
      NoDirty(c, s, site.d, s'.count);
    } else {
      RetryFrame(c, s, s');
      OneRetry(c, s');
    }
  }

  lemma RetryFrame(c: Config, s: State, s': State)
    requires RetryInv(c, s) && s'.probes == s.probes && s'.worker == s.worker
    ensures RetryInv(c, s')
  {
  }

  lemma TestDropsCall(p: map<Device, Attempt>, n: nat, calls: map<Site, Trigger>, site: Site)
    requires site in calls && !calls[site].Spliced?
    ensures Splices(p, n, calls - {site}) < Splices(p, n, calls)
  {
    var calls' := calls - {site};
    assert Own(p, calls') == Own(p, calls) - {site} && Foreign(p, calls') == Foreign(p, calls) - {site};
    assert site in Own(p, calls) || site in Foreign(p, calls);
  }

  lemma TestArms(p: map<Device, Attempt>, n: nat, calls: map<Site, Trigger>, site: Site)
    requires site in calls && calls[site].Check?
    ensures Splices(p, n, calls[site := Armed]) == Splices(p, n, calls)
    ensures SplicedCalls(calls[site := Armed]) == SplicedCalls(calls)
    ensures |UntestedCalls(calls[site := Armed])| < |UntestedCalls(calls)|
  {
    var calls' := calls[site := Armed];
    assert Own(p, calls') == Own(p, calls) && Foreign(p, calls') == Foreign(p, calls);
    assert UntestedCalls(calls') == UntestedCalls(calls) - {site} && site in UntestedCalls(calls);
  }

  lemma CallQueues(p: map<Device, Attempt>, n: nat, calls: map<Site, Trigger>, site: Site)
    requires site in calls && calls[site].Spliced?
    ensures Splices(p, n, calls - {site}) == Splices(p, n, calls)
    ensures |SplicedCalls(calls - {site})| == |SplicedCalls(calls)| - 1
  {
    var calls' := calls - {site};
    assert Own(p, calls') == Own(p, calls) && Foreign(p, calls') == Foreign(p, calls);
    assert SplicedCalls(calls') == SplicedCalls(calls) - {site} && site in SplicedCalls(calls);
  }

  /** A new retry has the counter's latest value. */
  lemma RetryBegins(p: map<Device, Attempt>, n: nat, calls: map<Site, Trigger>, d: Device, r: Driver)
    requires d !in p && At(d) !in calls
    ensures Splices(p[d := Attempt(r, Retry, Snapped(n))], n, calls) == Splices(p, n, calls)
  {
    var p' := p[d := Attempt(r, Retry, Snapped(n))];
    assert Others(p') == Others(p) && Dirties(p', n) == Dirties(p, n) && Own(p', calls) == Own(p, calls) &&
      Foreign(p', calls) == Foreign(p, calls);
  }

  lemma AttemptEnds(p: map<Device, Attempt>, n: nat, calls: map<Site, Trigger>, d: Device)
    requires d in p && p[d].stage.Leaving? && At(d) !in calls
    ensures Splices(p - {d}, n, calls) == Splices(p, n, calls)
  {
    var p' := p - {d};
    assert Others(p') == Others(p) && Dirties(p', n) == Dirties(p, n) && Own(p', calls) == Own(p, calls) &&
      Foreign(p', calls) == Foreign(p, calls);
  }

  // ---------------------------------------------------------------- every step leaves less to come

  lemma Shorter(c: Config, s: State, d: Device, m: Move)
    requires Can(c, s, Probe(d, m))
    ensures Distance(c, d, DoProbe(c, s, d, m).probes[d]) < Distance(c, d, s.probes[d])
  {
    hide Del, AddTail;
  }

  lemma QuietFrame(c: Config, s: State, d: Device, m: Move)
    requires Can(c, s, Probe(d, m)) && !m.Unlist? && !m.Retrigger?
    ensures DoProbe(c, s, d, m).triggers == s.triggers && DoProbe(c, s, d, m).active == s.active
  {
    hide Next, CanMove, Del, AddTail;
  }

  lemma QuietLowers(c: Config, s: State, d: Device, m: Move)
    requires Can(c, s, Probe(d, m)) && !m.Unlist? && !m.Retrigger? && !m.Bind?
    ensures RankOf(c, DoProbe(c, s, d, m)).Below(RankOf(c, s))
  {
    hide DoProbe, CanMove, Unbound, Known, Distance, Distances, Ahead, UntestedCalls, SplicedCalls;
    var s' := DoProbe(c, s, d, m);
    UnboundProbe(c, s, d, m);
    QuietMove(c, s, d, m);
    QuietFrame(c, s, d, m);
    Shorter(c, s, d, m);
    DistancesMove(c, s.probes, d, s'.probes[d]);
  }

  lemma ProbeLowers(c: Config, s: State, d: Device, m: Move)
    requires ListInv(s) && Can(c, s, Probe(d, m))
    ensures RankOf(c, DoProbe(c, s, d, m)).Below(RankOf(c, s))
  {
    hide ListInv, DoProbe, CanMove, Unbound, Known, Ahead, Asked, Todo, Footwork;
    if m.Bind? {
      BindLowers(c, s, d);
    } else if m.Unlist? || m.Retrigger? {
      UnboundProbe(c, s, d, m);
      CallMade(c, s, d, m);
    } else {
      QuietLowers(c, s, d, m);
    }
  }

  lemma TrigLowers(c: Config, s: State, site: Site, k: TriggerMove)
    requires CallInv(s) && RetryInv(c, s) && CanTrig(s, site, k)
    ensures RankOf(c, DoTrig(s, site, k)).Below(RankOf(c, s))
  {
    hide CallInv, RetryInv, Unbound, Known, Splices, Distances, UntestedCalls, SplicedCalls;
    UnboundTrig(s, site, k);
    match k
    case Test => TestDropsCall(s.probes, s.count, s.triggers, site); TestArms(s.probes, s.count, s.triggers, site);
    case Splice => SpliceLowers(c, s, site);
    case Queue => CallQueues(s.probes, s.count, s.triggers, site);
  }

  lemma WorkLowers(c: Config, s: State, w: WorkerMove)
    requires CallInv(s) && CanWork(s, w)
    ensures RankOf(c, DoWork(c, s, w)).Below(RankOf(c, s))
  {
    hide Unbound, Known, AddTail, Splices, Distances, UntestedCalls, SplicedCalls;
    var s' := DoWork(c, s, w);
    UnboundWork(c, s, w);
    if w.Try? { RetryBegins(s.probes, s.count, s.triggers, s.worker.d, w.r); }
    if w.MatchCut? { SmallerSize(s'.matching, s.matching, w.cut); }
  }

  lemma LeaveLowers(c: Config, s: State, d: Device)
    requires Can(c, s, Leave(d))
    ensures RankOf(c, DoEnds(s, Leave(d))).Below(RankOf(c, s))
  {
    hide Unbound, Known, Splices, Distances, UntestedCalls, SplicedCalls, AfterLeave;
    var s' := DoEnds(s, Leave(d));
    UnboundLeave(c, s, d);
    AttemptEnds(s.probes, s.count, s.triggers, d);
    DistancesPick(c, s.probes, d);
    if s.worker.Retrying? { SubsetSize(s'.worker.todo, s.worker.todo); }
  }

  lemma MatchLowers(c: Config, s: State, miss: Miss)
    requires Can(c, s, MatchDefer(miss))
    ensures RankOf(c, DoDevice(s, MatchDefer(miss))).Below(RankOf(c, s))
  {
    hide Unbound, Known, Ahead, Asked, Todo, Footwork;
    UnboundMatch(c, s, miss);
    SmallerSize(DoDevice(s, MatchDefer(miss)).matching, s.matching, miss);
  }

  lemma WaitLowers(c: Config, s: State, g: GateMove)
    requires CanPause(s, g) && (g.Flushed? || g.Drained?)
    ensures RankOf(c, DoPause(s, g)).Below(RankOf(c, s))
  {
    hide Splices, Distances, UntestedCalls, SplicedCalls;
  }

  /** Every step of a thread under way, in whatever order the threads are scheduled, leaves less to come. */
  lemma StepLowers(c: Config, s: State, t: Step)
    requires ListInv(s) && RetryInv(c, s) && CallInv(s) && UnderWay(t) && Can(c, s, t)
    ensures RankOf(c, Do(c, s, t)).Below(RankOf(c, s))
  {
    hide ListInv, RetryInv, CallInv, RankOf, Rank.Below, CanMove, CanTrig, CanWork, CanPause, DoProbe, DoTrig, DoWork,
      DoPause, DoEnds, DoDevice;
    match t
    case Probe(d, m) => ProbeLowers(c, s, d, m);
    case Leave(d) => LeaveLowers(c, s, d);
    case Trig(site, k) => TrigLowers(c, s, site, k);
    case Work(w) => WorkLowers(c, s, w);
    case Pause(g) => WaitLowers(c, s, g);
    case MatchDefer(miss) => MatchLowers(c, s, miss);
  }

  // ---------------------------------------------------------------- whole schedules

  /** An endless schedule: state and step at every moment. */
  ghost predicate Endless(c: Config, s: nat -> State, t: nat -> Step) {
    forall i: nat :: Can(c, s(i), t(i)) && s(i + 1) == Do(c, s(i), t(i))
  }

  lemma {:induction false} SomethingBegins(c: Config, s: nat -> State, t: nat -> Step, i: nat) returns (n: nat)
    requires Endless(c, s, t) && Inv(c, s(i)) && CallInv(s(i))
    ensures i <= n && !UnderWay(t(n))
    decreases RankOf(c, s(i)).unbound, RankOf(c, s(i)).matching, RankOf(c, s(i)).splices, RankOf(c, s(i)).active,
              RankOf(c, s(i)).asked, RankOf(c, s(i)).todo, RankOf(c, s(i)).footwork
  {
    hide Do, RankOf, ListInv, WorkerInv, CountInv, GateInv, AskedInv, RetryInv, OwedInv, CallInv;
    n := i;
    if UnderWay(t(i)) {
      InvStep(c, s(i), t(i));
      CallStep(c, s(i), t(i));
      StepLowers(c, s(i), t(i));
      n := SomethingBegins(c, s, t, i + 1);
    }
  }

  /** No schedule of the threads under way goes on for ever, whichever callbacks fail: an endless one has, again
      and again, a step that begins something new. Retries wake each other only so often. */
  lemma NoEndlessRetry(c: Config, ts: seq<Step>, s: nat -> State, t: nat -> Step, from: nat) returns (n: nat)
    requires Exec(c, Init(), ts, s(0)) && Endless(c, s, t)
    ensures from <= n && !UnderWay(t(n))
  {
    InvAlong(c, Init(), ts, s(0));
    CallAlong(c, Init(), ts, s(0));
    Onward(c, s, t, from);
    n := SomethingBegins(c, s, t, from);
  }

  lemma {:induction false} Onward(c: Config, s: nat -> State, t: nat -> Step, i: nat)
    requires Endless(c, s, t) && Inv(c, s(0)) && CallInv(s(0))
    ensures Inv(c, s(i)) && CallInv(s(i))
  {
    hide Do, Inv, CallInv;
    if i > 0 {
      Onward(c, s, t, i - 1);
      InvStep(c, s(i - 1), t(i - 1));
      CallStep(c, s(i - 1), t(i - 1));
    }
  }

  lemma {:induction false} Finish(c: Config, s: State) returns (us: seq<Step>, s': State)
    requires Inv(c, s) && CallInv(s)
    ensures Exec(c, s, us, s') && Quiet(s') && forall u :: u in us ==> Willing(u)
    decreases RankOf(c, s).unbound, RankOf(c, s).matching, RankOf(c, s).splices, RankOf(c, s).active,
              RankOf(c, s).asked, RankOf(c, s).todo, RankOf(c, s).footwork
  {
    hide Do, RankOf, ListInv, WorkerInv, CountInv, GateInv, AskedInv, RetryInv, OwedInv, CallInv, Quiet;
    if Quiet(s) {
      us, s' := [], s;
    } else {
      var t := NeverStuck(c, s);
      InvStep(c, s, t);
      CallStep(c, s, t);
      StepLowers(c, s, t);
      us, s' := Finish(c, Do(c, s, t));
      us := [t] + us;
    }
  }

  lemma GateKept(c: Config, s: State, t: Step)
    requires Can(c, s, t) && UnderWay(t)
    ensures Do(c, s, t).enable == s.enable && Do(c, s, t).deferAll == s.deferAll
  {
    hide DoProbe, DoTrig, DoWork, DoEnds, DoDevice;
  }

  lemma {:induction false} GateKeptAlong(c: Config, s: State, us: seq<Step>, s': State)
    requires Exec(c, s, us, s') && forall u :: u in us ==> UnderWay(u)
    ensures s'.enable == s.enable && s'.deferAll == s.deferAll
    decreases |us|
  {
    hide Do, Can, UnderWay;
    if us != [] {
      GateKept(c, s, us[0]);
      assert forall u :: u in us[1..] ==> u in us;
      GateKeptAlong(c, Do(c, s, us[0]), us[1..], s');
    }
  }

  /** From every state that deferral-enabled, unblocked probing can get into, the threads under way can come to
      rest by themselves, so the promises about resting states are promises about states that are reached. */
  lemma RestIsReached(c: Config, ts: seq<Step>, s: State) returns (us: seq<Step>, s': State)
    requires Exec(c, Init(), ts, s) && s.enable && !s.deferAll
    ensures Exec(c, s, us, s') && (forall u :: u in us ==> Willing(u)) && Resting(s')
  {
    InvAlong(c, Init(), ts, s);
    CallAlong(c, Init(), ts, s);
    us, s' := Finish(c, s);
    GateKeptAlong(c, s, us, s');
  }

  /** Every schedule serves: whatever has happened, let the threads under way run in any order until none of them can
      go on. Then everything is at rest, the worker has nothing left to do, and every driver whose probe deferred a
      device that is still pending misses a supplier. */
  lemma EveryScheduleServes(c: Config, ts: seq<Step>, s: State, us: seq<Step>, s': State)
    requires Exec(c, Init(), ts, s) && Unwrapped(c, Init(), ts) && s.enable && !s.deferAll
    requires Exec(c, s, us, s') && Unwrapped(c, s, us) && (forall u :: u in us ==> UnderWay(u))
    requires Stuck(c, s')
    ensures Resting(s') && s'.active == []
    ensures forall r, d :: (r, d) in s'.asked ==> Waits(c, s', r, d)
    ensures forall r, d :: (r, d) in s'.owed ==> d in s'.pending && d !in s'.bound && d !in s'.gone
  {
    hide Do, ListInv, WorkerInv, CountInv, GateInv, FlushInv, AskedInv, RetryInv, OwedInv, SnapInv, TodoInv, MissInv,
      Waits;
    assert FullInv(c, Init()) by { FullAtStart(c); }
    FullAlong(c, Init(), ts, s);
    FullAlong(c, s, us, s');
    GateKeptAlong(c, s, us, s');
    assert Quiet(s') by {
      if !Quiet(s') { var t := NeverStuck(c, s'); }
    }
    AtRest(c, s');
  }

  lemma FullAtStart(c: Config)
    ensures FullInv(c, Init())
  {
  }

  lemma AtRest(c: Config, s: State)
    requires FullInv(c, s) && Resting(s)
    ensures s.active == [] && (forall r, d :: (r, d) in s.asked ==> Waits(c, s, r, d))
    ensures forall r, d :: (r, d) in s.owed ==> d in s.pending && d !in s.bound && d !in s.gone
  {
  }
}
