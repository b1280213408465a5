/**
 What can get bound. As long as no device is detached, removed, attached by hand or deferred by a match callback, no
 schedule of the threads under way binds more than the least set that is closed under "all suppliers of one of its
 drivers bound", and a device in play stays in hand until it is bound.
 */
module DeferredProbeLeast {
  import opened ProbeLists
  import opened DeferredProbe
  import opened DeferredProbeSafety
  import opened DeferredProbeTheorems
  import opened DeferredProbeSettles

  /** Steps that take nothing away and defer by probes only. */
  predicate Orderly(t: Step) {
    !t.Release? && !t.Kill? && !t.Drop? && !t.Attach? && !t.MatchMiss?
  }

  ghost predicate OrderlyInv(c: Config, s: State) {
    && s.matching == {} && s.late == {} && s.gone == {}
    && (forall d :: d in s.probes ==> s.probes[d].Counted())
    && (forall d :: d in s.probes && s.probes[d].stage.Probing? ==>
      c.Needs(s.probes[d].drv, d) - s.probes[d].stage.todo <= s.bound)
    && (forall d :: d in s.probes && s.probes[d].entry.Retry? && s.worker.Retrying? ==>
      s.probes[d].drv !in s.worker.todo)
    && (forall r, d :: (r, d) in s.asked ==> r in c.DriversOf(d))
  }

  lemma OrderlyProbe(c: Config, s: State, d: Device, m: Move)
    requires OrderlyInv(c, s) && RetryInv(c, s) && Can(c, s, Probe(d, m))
    ensures OrderlyInv(c, DoProbe(c, s, d, m))
  {
    hide AddTail, Without;
  }

  lemma OrderlyWork(c: Config, s: State, w: WorkerMove)
    requires OrderlyInv(c, s) && RetryInv(c, s) && CanWork(s, w)
    ensures OrderlyInv(c, DoWork(c, s, w))
  {
    hide AddTail;
  }

  lemma OrderlyEnds(c: Config, s: State, t: Step)
    requires OrderlyInv(c, s) && Can(c, s, t) && (t.Snap? || t.Leave?)
    ensures OrderlyInv(c, DoEnds(s, t))
  {
    hide AfterLeave;
  }

  lemma OrderlyStep(c: Config, s: State, t: Step)
    requires OrderlyInv(c, s) && RetryInv(c, s) && Can(c, s, t) && Orderly(t)
    ensures OrderlyInv(c, Do(c, s, t))
  {
    hide RetryInv, DoProbe, DoTrig, DoWork, DoPause, DoEnds;
    match t
    case Probe(d, m) => OrderlyProbe(c, s, d, m);
    case Work(w) => OrderlyWork(c, s, w);
    case Snap(_, _) => OrderlyEnds(c, s, t);
    case Leave(_) => OrderlyEnds(c, s, t);
    case _ =>
  }

  lemma {:induction false} OrderlyAlong(c: Config, s: State, ts: seq<Step>, s': State)
    requires Inv(c, s) && OrderlyInv(c, s) && Exec(c, s, ts, s') && forall t :: t in ts ==> Orderly(t)
    ensures OrderlyInv(c, s')
    decreases |ts|
  {
    hide Do, OrderlyInv, Orderly, ListInv, WorkerInv, CountInv, GateInv, FlushInv, AskedInv, RetryInv, OwedInv;
    if ts != [] {
      OrderlyStep(c, s, ts[0]);
      InvStep(c, s, ts[0]);
      assert forall t :: t in ts[1..] ==> t in ts;
      OrderlyAlong(c, Do(c, s, ts[0]), ts[1..], s');
    }
  }

  // ---------------------------------------------------------------- nothing but what is in play gets bound

  /** Someone has the device in hand for one of its drivers. */
  ghost predicate InPlay(c: Config, s: State, d: Device) {
    d !in s.bound && exists r :: r in c.DriversOf(d) && InHand(s, r, d)
  }

  ghost function Devices(c: Config, s: State): set<Device> {
    set d | d in Known(s) && InPlay(c, s, d)
  }

  ghost predicate ClosedOver(c: Config, devs: set<Device>, x: set<Device>) {
    forall r, d :: d in devs && r in c.DriversOf(d) && c.Needs(r, d) <= x ==> d in x
  }

  ghost predicate Least(c: Config, devs: set<Device>, base: set<Device>, x: set<Device>) {
    && base <= x && ClosedOver(c, devs, x)
    && forall y :: base <= y && ClosedOver(c, devs, y) ==> x <= y
  }

  lemma InPlayKnown(c: Config, s: State, d: Device)
    requires InPlay(c, s, d)
    ensures d in Devices(c, s)
  {
  }

  lemma PlayProbe(c: Config, s: State, e: Device, m: Move, d: Device)
    requires OrderlyInv(c, s) && RetryInv(c, s) && Can(c, s, Probe(e, m)) && InPlay(c, DoProbe(c, s, e, m), d)
    ensures InPlay(c, s, d)
  {
    hide Config.Needs, Config.DriversOf;
    var s' := DoProbe(c, s, e, m);
    BoundAfter(c, s, e, m);
    var r :| r in c.DriversOf(d) && InHand(s', r, d);
    if d == e && m.Add? {
      assert InHand(s, s.probes[e].drv, e);
    } else {
      if s'.Listed(d) { ListedAfter(c, s, e, m, d); }
      if s'.probes[e].Open() { StillOpen(c, s, e, m); }
      hide DoProbe, CanMove, OrderlyInv, RetryInv;
      assert InHand(s, r, d);
    }
  }

  lemma StillOpen(c: Config, s: State, e: Device, m: Move)
    requires Can(c, s, Probe(e, m)) && DoProbe(c, s, e, m).probes[e].Open()
    ensures s.probes[e].Open()
  {
    hide Del, AddTail;
  }

  lemma PlayWork(c: Config, s: State, w: WorkerMove, d: Device)
    requires OrderlyInv(c, s) && RetryInv(c, s) && CanWork(s, w) && InPlay(c, DoWork(c, s, w), d)
    ensures InPlay(c, s, d)
  {
    hide Config.Needs;
    var r :| r in c.DriversOf(d) && InHand(DoWork(c, s, w), r, d);
    assert InHand(s, r, d);
  }

  lemma PlayTrig(c: Config, s: State, site: Site, k: TriggerMove, d: Device)
    requires CanTrig(s, site, k) && InPlay(c, DoTrig(s, site, k), d)
    ensures InPlay(c, s, d)
  {
    var r :| r in c.DriversOf(d) && InHand(DoTrig(s, site, k), r, d);
    assert InHand(s, r, d);
  }

  lemma PlayLeave(c: Config, s: State, e: Device, d: Device)
    requires Can(c, s, Leave(e)) && InPlay(c, DoEnds(s, Leave(e)), d)
    ensures InPlay(c, s, d)
  {
    hide AfterLeave;
    var r :| r in c.DriversOf(d) && InHand(DoEnds(s, Leave(e)), r, d);
    assert InHand(s, r, d);
  }

  /** Nothing comes into play that was not. */
  lemma PlayStep(c: Config, s: State, t: Step, d: Device)
    requires OrderlyInv(c, s) && RetryInv(c, s) && Can(c, s, t) && UnderWay(t) && InPlay(c, Do(c, s, t), d)
    ensures InPlay(c, s, d)
  {
    assert !t.MatchDefer?;
    hide OrderlyInv, RetryInv, DoProbe, DoTrig, DoWork, DoPause, DoEnds;
    match t
    case Probe(e, m) => PlayProbe(c, s, e, m, d);
    case Work(w) => PlayWork(c, s, w, d);
    case Trig(site, k) => PlayTrig(c, s, site, k, d);
    case Leave(e) => PlayLeave(c, s, e, d);
    case Pause(g) =>
      var r :| r in c.DriversOf(d) && InHand(Do(c, s, t), r, d);
      assert InHand(s, r, d);
  }

  lemma BindInPlay(c: Config, s: State, d: Device)
    requires ListInv(s) && RetryInv(c, s) && OrderlyInv(c, s) && Can(c, s, Probe(d, Bind))
    ensures InPlay(c, s, d) && s.probes[d].drv in c.DriversOf(d) && c.Needs(s.probes[d].drv, d) <= s.bound
  {
    hide NoDup;
    assert InHand(s, s.probes[d].drv, d);
  }

  /** A step binds only what every closed set above what is bound contains. */
  lemma StepBelow(c: Config, s: State, t: Step, devs: set<Device>, y: set<Device>)
    requires Inv(c, s) && OrderlyInv(c, s) && Can(c, s, t) && UnderWay(t) && ClosedOver(c, devs, y) && s.bound <= y
    requires forall d :: InPlay(c, s, d) ==> d in devs
    ensures s.bound <= Do(c, s, t).bound <= y
  {
    hide OrderlyInv, ListInv, WorkerInv, CountInv, GateInv, FlushInv, AskedInv, RetryInv, OwedInv, InPlay;
    if t.Probe? {
      BoundAfter(c, s, t.d, t.m);
      if t.m.Bind? { BindInPlay(c, s, t.d); }
    } else {
      OthersBindNothing(c, s, t);
    }
  }

  lemma OthersBindNothing(c: Config, s: State, t: Step)
    requires Can(c, s, t) && UnderWay(t) && !t.Probe?
    ensures Do(c, s, t).bound == s.bound
  {
    hide DoTrig, DoWork, DoPause, DoEnds, AddByMatch;
  }

  lemma {:induction false} RunBelow(c: Config, s: State, us: seq<Step>, s': State, devs: set<Device>, y: set<Device>)
    requires Inv(c, s) && OrderlyInv(c, s) && Exec(c, s, us, s') && (forall u :: u in us ==> UnderWay(u))
    requires ClosedOver(c, devs, y) && s.bound <= y && (forall d :: InPlay(c, s, d) ==> d in devs)
    ensures s.bound <= s'.bound <= y
    decreases |us|
  {
    hide Do, OrderlyInv, ClosedOver, InPlay, ListInv, WorkerInv, CountInv, GateInv, FlushInv, AskedInv, RetryInv,
      OwedInv;
    if us != [] {
      var t, u := us[0], Do(c, s, us[0]);
      StepBelow(c, s, t, devs, y);
      UnderWayIsOrderly(t);
      OrderlyStep(c, s, t);
      InvStep(c, s, t);
      forall d | InPlay(c, u, d) ensures d in devs { PlayStep(c, s, t, d); }
      assert forall v :: v in us[1..] ==> v in us;
      RunBelow(c, u, us[1..], s', devs, y);
    }
  }

  lemma UnderWayIsOrderly(t: Step)
    requires UnderWay(t)
    ensures Orderly(t)
  {
  }

  // ---------------------------------------------------------------- what is in play stays in hand

  /** A probe without failure keeps the device in hand until it is bound. */
  lemma PairMove(c: Config, s: State, d: Device, m: Move, r: Driver)
    requires PairOk(c, s, r, d) && ListInv(s) && Can(c, s, Probe(d, m)) && !m.Fail? && !m.Abort?
    ensures PairOk(c, DoProbe(c, s, d, m), r, d) || d in DoProbe(c, s, d, m).bound
  {
    if m.Add? {
      PairAdd(c, s, d, r);
    } else if m.Bind? {
      BoundAfter(c, s, d, m);
    } else {
      hide NoDup, Del, AddTail, Config.DriversOf;
      assert !m.Unlist?;
      PairQuiet(c, s, d, m, r);
    }
  }

  lemma PairStep(c: Config, s: State, t: Step, r: Driver, d: Device)
    requires PairOk(c, s, r, d) && Inv(c, s) && OrderlyInv(c, s) && Can(c, s, t) && Willing(t)
    ensures PairOk(c, Do(c, s, t), r, d) || d in Do(c, s, t).bound
  {
    assert !t.MatchDefer?;
    hide PairOk, OrderlyInv, ListInv, WorkerInv, CountInv, GateInv, FlushInv, AskedInv, RetryInv, OwedInv;
    hide DoProbe, DoTrig, DoWork, DoPause, DoEnds, CanMove, CanTrig, CanWork, CanPause;
    match t
    case Probe(e, m) => if e == d { PairMove(c, s, d, m, r); } else { PairOther(c, s, e, m, r, d); }
    case Work(w) => PairWork(c, s, w, r, d);
    case Leave(_) => PairEnds(c, s, t, r, d);
    case Trig(site, k) => PairTrig(c, s, site, k, r, d);
    case Pause(_) => PairFrame(c, s, Do(c, s, t), r, d);
  }

  lemma PairTrig(c: Config, s: State, site: Site, k: TriggerMove, r: Driver, d: Device)
    requires PairOk(c, s, r, d) && CanTrig(s, site, k)
    ensures PairOk(c, DoTrig(s, site, k), r, d)
  {
    hide PairOk;
    PairFrame(c, s, DoTrig(s, site, k), r, d);
  }

  lemma {:induction false} PairAlong(c: Config, s: State, us: seq<Step>, s': State, r: Driver, d: Device)
    requires Inv(c, s) && OrderlyInv(c, s) && Exec(c, s, us, s') && (forall u :: u in us ==> Willing(u))
    requires PairOk(c, s, r, d) || d in s.bound
    ensures PairOk(c, s', r, d) || d in s'.bound
    decreases |us|
  {
    hide Do, PairOk, OrderlyInv, ListInv, WorkerInv, CountInv, GateInv, FlushInv, AskedInv, RetryInv, OwedInv;
    if us != [] {
      var t := us[0];
      if PairOk(c, s, r, d) { PairStep(c, s, t, r, d); } else { StaysBound(c, s, t, d); }
      UnderWayIsOrderly(t);
      OrderlyStep(c, s, t);
      InvStep(c, s, t);
      assert forall v :: v in us[1..] ==> v in us;
      PairAlong(c, Do(c, s, t), us[1..], s', r, d);
    }
  }

  lemma StaysBound(c: Config, s: State, t: Step, d: Device)
    requires Can(c, s, t) && UnderWay(t) && d in s.bound
    ensures d in Do(c, s, t).bound
  {
    hide DoProbe, CanMove;
    if t.Probe? { BoundAfter(c, s, t.d, t.m); } else { OthersBindNothing(c, s, t); }
  }

  lemma OutcomeBelow(c: Config, s: State, us: seq<Step>, s': State)
    requires Inv(c, s) && OrderlyInv(c, s) && Exec(c, s, us, s') && (forall u :: u in us ==> UnderWay(u))
    requires ClosedOver(c, Devices(c, s), s'.bound)
    ensures Least(c, Devices(c, s), s.bound, s'.bound)
  {
    hide Exec, Inv, OrderlyInv, UnderWay, Known, InPlay, ClosedOver;
    forall d | InPlay(c, s, d) ensures d in Devices(c, s) { InPlayKnown(c, s, d); }
    forall y | s.bound <= y && ClosedOver(c, Devices(c, s), y) ensures s'.bound <= y {
      RunBelow(c, s, us, s', Devices(c, s), y);
    }
    Grows(c, s, us, s');
  }

  lemma {:induction false} Grows(c: Config, s: State, us: seq<Step>, s': State)
    requires Exec(c, s, us, s') && (forall u :: u in us ==> UnderWay(u))
    ensures s.bound <= s'.bound
    decreases |us|
  {
    hide Do, UnderWay;
    if us != [] {
      forall d | d in s.bound ensures d in Do(c, s, us[0]).bound { StaysBound(c, s, us[0], d); }
      assert forall v :: v in us[1..] ==> v in us;
      Grows(c, Do(c, s, us[0]), us[1..], s');
    }
  }

  lemma OrderlyStart(c: Config)
    ensures FullInv(c, Init()) && OrderlyInv(c, Init())
  {
  }
}
