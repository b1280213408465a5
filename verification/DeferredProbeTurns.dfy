/**
 Whose turn comes. A driver of a device in play is tried before everything comes to rest if it is on its way already,
 and every driver is once the pending list has been spliced; without a splice nobody else is.
 */
module DeferredProbeTurns {
  import opened ProbeLists
  import opened DeferredProbe
  import opened DeferredProbeSafety
  import opened DeferredProbeTheorems
  import opened DeferredProbeSettles
  import opened DeferredProbeLeast

  // ---------------------------------------------------------------- every driver gets its turn

  /** Device links belong to the device: every driver of the device needs the supplier at the other end. */
  predicate Common(c: Config, t: Step) {
    t.Probe? && t.m.Missing? && t.m.link ==> forall r :: r in c.DriversOf(t.d) ==> t.m.x in c.Needs(r, t.d)
  }

  /** A step under way that reports no failure. */
  predicate Fair(c: Config, t: Step) {
    Willing(t) && Common(c, t)
  }

  /** This retry ends the walk along the drivers, or is about to. */
  predicate Ending(a: Attempt) {
    a.entry.Retry? && (a.Stops() || (a.stage.Deferring? && a.stage.stop))
  }

  /** The driver will be tried on the device before it can come to rest, or has deferred it since it was listed. */
  predicate Covered(s: State, r: Driver, d: Device) {
    || d in s.active
    || (d in s.pending && (r, d) in s.asked)
    || (s.worker.Retrying? && s.worker.d == d && r in s.worker.todo && !(d in s.probes && Ending(s.probes[d])))
    || (d in s.probes && s.probes[d].drv == r && s.probes[d].Counted() && s.probes[d].Open())
  }

  /** A walk that supplier `x` cut short left the device on its way to the pending list, for as long as `x` is not
      bound. */
  ghost predicate Held(s: State, x: Device, d: Device) {
    || (s.Listed(d) && (WillSplice(s) || x !in s.bound))
    || (d in s.probes && s.probes[d].stage.Deferring? && s.probes[d].Counted() &&
        (WillSplice(s) || x !in s.bound || s.probes[d].stage.snap != s.count))
  }

  ghost predicate Coming(c: Config, s: State, r: Driver, d: Device) {
    Covered(s, r, d) || exists x :: x in c.Needs(r, d) && Held(s, x, d)
  }

  lemma CoveredFrame(s: State, s': State, r: Driver, d: Device)
    requires Covered(s, r, d) && s'.worker == s.worker
    requires d in s.active ==> d in s'.active
    requires d in s.pending && (r, d) in s.asked ==> d in s'.active || (d in s'.pending && (r, d) in s'.asked)
    requires d in s.probes <==> d in s'.probes
    requires d in s.probes ==> s'.probes[d] == s.probes[d]
    ensures Covered(s', r, d)
  {
  }

  lemma CoveredOther(c: Config, s: State, e: Device, m: Move, r: Driver, d: Device)
    requires Covered(s, r, d) && Can(c, s, Probe(e, m)) && e != d
    ensures Covered(DoProbe(c, s, e, m), r, d)
  {
    hide Next, Covered;
    CoveredFrame(s, DoProbe(c, s, e, m), r, d);
  }

  lemma CoveredAdd(c: Config, s: State, d: Device, r: Driver)
    requires Covered(s, r, d) && Can(c, s, Probe(d, Add))
    ensures Covered(DoProbe(c, s, d, Add), r, d)
  {
    hide Config.DriversOf, Config.Needs;
  }

  lemma CoveredQuiet(c: Config, s: State, d: Device, m: Move, r: Driver)
    requires Covered(s, r, d) && d !in s.bound && d !in s.gone && !s.deferAll
    requires Can(c, s, Probe(d, m)) && !m.Add? && !m.Bind? && !m.Unlist? && !m.Fail? && !m.Abort?
    requires !(m.Missing? && m.link)
    ensures Covered(DoProbe(c, s, d, m), r, d)
  {
    hide Del, AddTail, Except, Config.DriversOf, Config.Needs;
  }

  lemma HeldAtOnce(c: Config, s: State, d: Device, x: Device)
    requires Can(c, s, Probe(d, Missing(x, true))) && s.probes[d].Counted()
    ensures Held(DoProbe(c, s, d, Missing(x, true)), x, d)
  {
    hide WillSplice;
  }

  lemma CoveredMove(c: Config, s: State, d: Device, m: Move, r: Driver)
    requires Covered(s, r, d) && r in c.DriversOf(d) && ListInv(s) && d !in s.bound && d !in s.gone && !s.deferAll
    requires Can(c, s, Probe(d, m)) && s.probes[d].Counted() && Fair(c, Probe(d, m))
    ensures Coming(c, DoProbe(c, s, d, m), r, d) || d in DoProbe(c, s, d, m).bound
  {
    hide Covered, Held, NoDup, Del, AddTail, Config.DriversOf, Config.Needs;
    if m.Add? {
      CoveredAdd(c, s, d, r);
    } else if m.Bind? {
      BoundAfter(c, s, d, m);
    } else if m.Missing? && m.link {
      HeldAtOnce(c, s, d, m.x);
    } else {
      assert !m.Unlist?;
      CoveredQuiet(c, s, d, m, r);
    }
  }

  lemma CoveredWork(c: Config, s: State, w: WorkerMove, r: Driver, d: Device)
    requires Covered(s, r, d) && r in c.DriversOf(d) && RetryInv(c, s) && d !in s.bound
    requires CanWork(s, w) && s.matching == {} && s.gone == {}
    ensures Covered(DoWork(c, s, w), r, d)
  {
    hide Except, Config.DriversOf;
  }

  lemma CoveredTrig(s: State, site: Site, k: TriggerMove, r: Driver, d: Device)
    requires Covered(s, r, d) && CanTrig(s, site, k)
    ensures Covered(DoTrig(s, site, k), r, d)
  {
    hide Covered;
    CoveredFrame(s, DoTrig(s, site, k), r, d);
  }

  lemma CoveredLeave(c: Config, s: State, e: Device, r: Driver, d: Device)
    requires Covered(s, r, d) && RetryInv(c, s) && Can(c, s, Leave(e))
    ensures Covered(DoEnds(s, Leave(e)), r, d)
  {
    hide Config.DriversOf;
  }

  lemma CoveredStep(c: Config, s: State, t: Step, r: Driver, d: Device)
    requires Covered(s, r, d) && r in c.DriversOf(d) && d !in s.bound && Inv(c, s) && OrderlyInv(c, s) && !s.deferAll
    requires Can(c, s, t) && Fair(c, t)
    ensures Coming(c, Do(c, s, t), r, d) || d in Do(c, s, t).bound
  {
    assert !t.MatchDefer? && s.matching == {} && s.gone == {} && (t.Probe? ==> s.probes[t.d].Counted());
    hide Covered, Held, Common, OrderlyInv, ListInv, WorkerInv, CountInv, GateInv, FlushInv, AskedInv, RetryInv,
      OwedInv;
    hide DoProbe, DoTrig, DoWork, DoPause, DoEnds, CanMove, CanTrig, CanWork, CanPause;
    match t
    case Probe(e, m) => if e == d { CoveredMove(c, s, d, m, r); } else { CoveredOther(c, s, e, m, r, d); }
    case Work(w) => CoveredWork(c, s, w, r, d);
    case Leave(e) => CoveredLeave(c, s, e, r, d);
    case Trig(site, k) => CoveredTrig(s, site, k, r, d);
    case Pause(_) => CoveredFrame(s, Do(c, s, t), r, d);
  }

  // ---------------------------------------------------------------- what a cut walk leaves

  predicate IsSplice(t: Step) { t.Trig? && t.k.Splice? }

  lemma HeldSplice(s: State, site: Site, x: Device, d: Device)
    requires Held(s, x, d) && SnapInv(s) && CanTrig(s, site, Splice)
    ensures Held(DoTrig(s, site, Splice), x, d) || d in DoTrig(s, site, Splice).active
  {
    hide WillSplice;
  }

  /** The supplier is missing until someone is about to splice. */
  lemma MissingKept(c: Config, s: State, t: Step, x: Device)
    requires Can(c, s, t) && !IsSplice(t) && !Wraps(c, s, t) && (WillSplice(s) || x !in s.bound)
    ensures WillSplice(Do(c, s, t)) || x !in Do(c, s, t).bound
  {
    hide Do, Committed, Wraps;
    if WillSplice(s) {
      WillSpliceStep(c, s, t);
    } else if x in Do(c, s, t).bound {
      BoundStep(c, s, t, x);
    }
  }

  lemma PendingKept(c: Config, s: State, t: Step, d: Device)
    requires Can(c, s, t) && UnderWay(t) && !IsSplice(t) && ListInv(s) && d in s.pending && d !in s.bound
    ensures d in Do(c, s, t).pending
  {
    hide NoDup, DoProbe, DoWork, DoPause, DoEnds;
    if t.Work? { WorkKeepsPending(c, s, t.w, d); }
    if t.Probe? { ProbeKeepsPending(c, s, t.d, t.m, d); }
  }

  lemma ProbeKeepsPending(c: Config, s: State, e: Device, m: Move, d: Device)
    requires ListInv(s) && Can(c, s, Probe(e, m)) && d in s.pending && d !in s.bound
    ensures d in DoProbe(c, s, e, m).pending
  {
    hide NoDup, Next;
    if m.Unlist? { assert e in s.bound; }
  }

  lemma WorkKeepsPending(c: Config, s: State, w: WorkerMove, d: Device)
    requires CanWork(s, w) && d in s.pending
    ensures d in DoWork(c, s, w).pending
  {
  }

  lemma HeldAdd(c: Config, s: State, d: Device, x: Device)
    requires Can(c, s, Probe(d, Add)) && (WillSplice(s) || x !in s.bound || s.probes[d].stage.snap != s.count)
    requires WillSplice(s) || x !in s.bound ==> WillSplice(DoProbe(c, s, d, Add)) || x !in DoProbe(c, s, d, Add).bound
    ensures Held(DoProbe(c, s, d, Add), x, d)
  {
    var s' := DoProbe(c, s, d, Add);
    if !(WillSplice(s) || x !in s.bound) { assert Committed(s', d); }
  }

  lemma HeldStep(c: Config, s: State, t: Step, x: Device, d: Device)
    requires Held(s, x, d) && d !in s.bound && d !in s.active && ListInv(s) && SnapInv(s)
    requires Can(c, s, t) && UnderWay(t) && !Wraps(c, s, t)
    ensures Held(Do(c, s, t), x, d) || d in Do(c, s, t).active
  {
    if IsSplice(t) {
      HeldSplice(s, t.site, x, d);
    } else if s.Listed(d) && (WillSplice(s) || x !in s.bound) {
      PendingKept(c, s, t, d);
      hide Do, Wraps, WillSplice;
      MissingKept(c, s, t, x);
    } else {
      HeldDeferring(c, s, t, x, d);
    }
  }

  lemma HeldDeferring(c: Config, s: State, t: Step, x: Device, d: Device)
    requires Can(c, s, t) && !IsSplice(t) && !Wraps(c, s, t)
    requires d in s.probes && s.probes[d].stage.Deferring? && s.probes[d].Counted()
    requires WillSplice(s) || x !in s.bound || s.probes[d].stage.snap != s.count
    ensures Held(Do(c, s, t), x, d)
  {
    if WillSplice(s) || x !in s.bound { MissingKept(c, s, t, x); }
    if t.Probe? && t.d == d {
      assert t.m.Add?;
      HeldAdd(c, s, d, x);
    } else {
      AttemptKept(c, s, t, d);
      hide Do, WillSplice;
    }
  }

  lemma ComingStep(c: Config, s: State, t: Step, r: Driver, d: Device)
    requires Coming(c, s, r, d) && r in c.DriversOf(d) && d !in s.bound && FullInv(c, s) && OrderlyInv(c, s)
    requires !s.deferAll && Can(c, s, t) && Fair(c, t) && !Wraps(c, s, t)
    ensures Coming(c, Do(c, s, t), r, d) || d in Do(c, s, t).bound
  {
    if Covered(s, r, d) {
      hide Covered, OrderlyInv, Do, Fair, Config.DriversOf;
      CoveredStep(c, s, t, r, d);
    } else {
      var x :| x in c.Needs(r, d) && Held(s, x, d);
      assert d !in s.active;
      hide Held, OrderlyInv, Do, Config.DriversOf, Config.Needs;
      HeldStep(c, s, t, x, d);
    }
  }

  lemma FairStep(c: Config, s: State, t: Step)
    requires FullInv(c, s) && OrderlyInv(c, s) && Can(c, s, t) && Fair(c, t) && !Wraps(c, s, t)
    ensures FullInv(c, Do(c, s, t)) && OrderlyInv(c, Do(c, s, t))
    ensures Do(c, s, t).enable == s.enable && Do(c, s, t).deferAll == s.deferAll
  {
    hide Do, Can, Wraps, Common, UnderWay, Orderly, OrderlyInv, ListInv, WorkerInv, CountInv, GateInv, FlushInv,
      AskedInv, RetryInv, OwedInv, SnapInv, TodoInv, MissInv, WakeInv;
    UnderWayIsOrderly(t);
    OrderlyStep(c, s, t);
    FullStep(c, s, t);
    GateKept(c, s, t);
  }

  /** No driver loses its turn: along any schedule without failures one whose turn is to come, or who deferred the
      device, stays so until the device is bound. */
  lemma {:induction false} ComingAlong(c: Config, s: State, us: seq<Step>, s': State, r: Driver, d: Device)
    requires FullInv(c, s) && OrderlyInv(c, s) && !s.deferAll && r in c.DriversOf(d)
    requires Exec(c, s, us, s') && Unwrapped(c, s, us) && (forall u :: u in us ==> Fair(c, u))
    requires Coming(c, s, r, d) || d in s.bound
    ensures Coming(c, s', r, d) || d in s'.bound
    decreases |us|
  {
    hide Do, Can, Wraps, Coming, Common, UnderWay, OrderlyInv, FullInv, Config.DriversOf;
    if us != [] {
      var t := us[0];
      assert Fair(c, t);
      if d in s.bound { StaysBound(c, s, t, d); } else { ComingStep(c, s, t, r, d); }
      FairStep(c, s, t);
      assert forall v :: v in us[1..] ==> v in us;
      ComingAlong(c, Do(c, s, t), us[1..], s', r, d);
    }
  }

  // ---------------------------------------------------------------- no driver of the walk has failed

  /** Every driver of the device being retried is still to be tried, is being tried, or has put the device back. */
  ghost predicate WalkWhole(c: Config, s: State) {
    s.worker.Retrying? && InPlay(c, s, s.worker.d) ==>
      forall r :: r in c.DriversOf(s.worker.d) ==> InHand(s, r, s.worker.d)
  }

  lemma HandProbe(c: Config, s: State, e: Device, m: Move, r: Driver, d: Device)
    requires ListInv(s) && Can(c, s, Probe(e, m)) && !m.Fail? && !m.Abort? && s.gone == {} && s.probes[e].Counted()
    requires InHand(s, r, d) && d !in DoProbe(c, s, e, m).bound
    ensures InHand(DoProbe(c, s, e, m), r, d)
  {
    BoundAfter(c, s, e, m);
    hide NoDup, Config.DriversOf, Config.Needs;
    if s.Listed(d) { ListedKept(c, s, e, m, d); }
  }

  lemma ListedKept(c: Config, s: State, e: Device, m: Move, d: Device)
    requires ListInv(s) && Can(c, s, Probe(e, m)) && s.Listed(d) && d !in s.bound
    ensures DoProbe(c, s, e, m).Listed(d)
  {
    hide NoDup, Next;
    if m.Unlist? { assert e in s.bound; }
  }

  lemma WalkProbe(c: Config, s: State, e: Device, m: Move)
    requires WalkWhole(c, s) && ListInv(s) && RetryInv(c, s) && OrderlyInv(c, s)
    requires Can(c, s, Probe(e, m)) && !m.Fail? && !m.Abort?
    ensures WalkWhole(c, DoProbe(c, s, e, m))
  {
    var s' := DoProbe(c, s, e, m);
    if s'.worker.Retrying? && InPlay(c, s', s'.worker.d) {
      var d := s.worker.d;
      PlayProbe(c, s, e, m, d);
      forall r | r in c.DriversOf(d) ensures InHand(s', r, d) {
        hide DoProbe, CanMove, ListInv, RetryInv, InHand, Config.DriversOf;
        HandProbe(c, s, e, m, r, d);
      }
    }
  }

  lemma WalkWork(c: Config, s: State, w: WorkerMove)
    requires WalkWhole(c, s) && RetryInv(c, s) && OrderlyInv(c, s) && CanWork(s, w)
    ensures WalkWhole(c, DoWork(c, s, w))
  {
    var s' := DoWork(c, s, w);
    if s'.worker.Retrying? && InPlay(c, s', s'.worker.d) { PlayWork(c, s, w, s'.worker.d); }
  }

  lemma WalkTrig(c: Config, s: State, site: Site, k: TriggerMove)
    requires WalkWhole(c, s) && CanTrig(s, site, k)
    ensures WalkWhole(c, DoTrig(s, site, k))
  {
    var s' := DoTrig(s, site, k);
    if s'.worker.Retrying? && InPlay(c, s', s'.worker.d) { PlayTrig(c, s, site, k, s'.worker.d); }
  }

  /** A retry that ended the walk has put its device back. */
  lemma EndedIsListed(c: Config, s: State, d: Device)
    requires WalkWhole(c, s) && RetryInv(c, s) && OrderlyInv(c, s) && InPlay(c, s, d)
    requires d in s.probes && s.probes[d].entry.Retry? && s.probes[d].Stops()
    ensures s.Listed(d)
  {
    assert InHand(s, s.probes[d].drv, d);
  }

  lemma WalkLeave(c: Config, s: State, e: Device)
    requires WalkWhole(c, s) && RetryInv(c, s) && OrderlyInv(c, s) && Can(c, s, Leave(e))
    ensures WalkWhole(c, DoEnds(s, Leave(e)))
  {
    var s' := DoEnds(s, Leave(e));
    if s'.worker.Retrying? && InPlay(c, s', s'.worker.d) {
      PlayLeave(c, s, e, s.worker.d);
      if e == s.worker.d && s.probes[e].entry.Retry? && s.probes[e].Stops() { EndedIsListed(c, s, e); }
    }
  }

  lemma WalkStep(c: Config, s: State, t: Step)
    requires WalkWhole(c, s) && Inv(c, s) && OrderlyInv(c, s) && Can(c, s, t) && Willing(t)
    ensures WalkWhole(c, Do(c, s, t))
  {
    assert !t.MatchDefer?;
    hide OrderlyInv, ListInv, WorkerInv, CountInv, GateInv, FlushInv, AskedInv, RetryInv, OwedInv, Config.DriversOf;
    hide DoProbe, DoTrig, DoWork, DoPause, DoEnds, CanMove, CanTrig, CanWork, CanPause;
    match t
    case Probe(e, m) => WalkProbe(c, s, e, m);
    case Work(w) => WalkWork(c, s, w);
    case Leave(e) => WalkLeave(c, s, e);
    case Trig(site, k) => WalkTrig(c, s, site, k);
    case Pause(_) => WalkPause(c, s, Do(c, s, t));
  }

  lemma WalkPause(c: Config, s: State, s': State)
    requires WalkWhole(c, s) && s' == s.(gate := s'.gate, deferAll := s'.deferAll, triggers := s'.triggers)
    ensures WalkWhole(c, s')
  {
    if s'.worker.Retrying? && InPlay(c, s', s'.worker.d) {
      var d := s.worker.d;
      var r :| r in c.DriversOf(d) && InHand(s', r, d);
      assert InHand(s, r, d);
    }
  }

  /** So a device in play is in hand for good. */
  lemma PlayPair(c: Config, s: State, d: Device) returns (q: Driver)
    requires WalkWhole(c, s) && RetryInv(c, s) && OrderlyInv(c, s) && InPlay(c, s, d)
    ensures PairOk(c, s, q, d)
  {
    q :| q in c.DriversOf(d) && InHand(s, q, d);
    if d in s.probes && s.probes[d].entry.Retry? && s.probes[d].Stops() { EndedIsListed(c, s, d); }
  }

  // ---------------------------------------------------------------- a splice gives every driver its turn

  /** An attempt that began before the last splice, so that it triggers whether it binds or defers. */
  predicate Stale(s: State, d: Device) {
    d in s.probes && s.probes[d].Counted() && s.probes[d].Open() && d !in s.bound && s.probes[d].stage.snap != s.count
  }

  ghost predicate SpliceAhead(s: State) {
    WillSplice(s) || exists d :: Stale(s, d)
  }

  ghost predicate AllComing(c: Config, s: State) {
    forall r, d :: InPlay(c, s, d) && r in c.DriversOf(d) ==> Coming(c, s, r, d)
  }

  lemma StaleMove(c: Config, s: State, d: Device, m: Move)
    requires Stale(s, d) && Can(c, s, Probe(d, m)) && s.gone == {} && !m.Fail? && !m.Abort?
    ensures Stale(DoProbe(c, s, d, m), d) || Committed(DoProbe(c, s, d, m), d)
  {
    hide Del, AddTail, Except;
  }

  lemma StaleStep(c: Config, s: State, t: Step, d: Device)
    requires Stale(s, d) && Can(c, s, t) && Willing(t) && !IsSplice(t) && s.gone == {}
    ensures Stale(Do(c, s, t), d) || Committed(Do(c, s, t), d)
  {
    if t.Probe? && t.d == d {
      StaleMove(c, s, d, t.m);
    } else {
      AttemptKept(c, s, t, d);
      if d in Do(c, s, t).bound { BoundStep(c, s, t, d); }
    }
  }

  lemma AheadStep(c: Config, s: State, t: Step)
    requires SpliceAhead(s) && Can(c, s, t) && Willing(t) && !IsSplice(t) && !Wraps(c, s, t) && s.gone == {}
    ensures SpliceAhead(Do(c, s, t))
  {
    if WillSplice(s) {
      WillSpliceStep(c, s, t);
    } else {
      var d :| Stale(s, d);
      hide Do;
      StaleStep(c, s, t, d);
    }
  }

  lemma AfterSplice(c: Config, s: State, site: Site)
    requires WalkWhole(c, s) && RetryInv(c, s) && OrderlyInv(c, s) && SnapInv(s) && CanTrig(s, site, Splice)
    ensures SpliceAhead(DoTrig(s, site, Splice)) || AllComing(c, DoTrig(s, site, Splice))
  {
    var s' := DoTrig(s, site, Splice);
    WalkTrig(c, s, site, Splice);
    if !SpliceAhead(s') {
      forall r, d | InPlay(c, s', d) && r in c.DriversOf(d) ensures Coming(c, s', r, d) {
        OneCovered(c, s', r, d);
      }
    }
  }

  lemma OneCovered(c: Config, s: State, r: Driver, d: Device)
    requires WalkWhole(c, s) && RetryInv(c, s) && OrderlyInv(c, s) && s.pending == []
    requires forall e :: e in s.probes && s.probes[e].Counted() && s.probes[e].Open() && e !in s.bound ==> Stale(s, e)
    requires !SpliceAhead(s) && InPlay(c, s, d) && r in c.DriversOf(d)
    ensures Covered(s, r, d)
  {
    hide WillSplice, Config.DriversOf, Config.Needs;
    var q :| q in c.DriversOf(d) && InHand(s, q, d);
    assert !(d in s.probes && s.probes[d].Counted() && s.probes[d].Open());
    if d !in s.active {
      assert InHand(s, r, d);
      if d in s.probes && s.probes[d].entry.Retry? && s.probes[d].Stops() { EndedIsListed(c, s, d); }
    }
  }

  /** Something will splice the pending list, or every driver's turn is to come anyhow. */
  ghost predicate Retried(c: Config, s: State) {
    SpliceAhead(s) || AllComing(c, s)
  }

  lemma AllComingStep(c: Config, s: State, t: Step)
    requires AllComing(c, s) && FullInv(c, s) && OrderlyInv(c, s)
    requires !s.deferAll && Can(c, s, t) && Fair(c, t) && !Wraps(c, s, t)
    ensures AllComing(c, Do(c, s, t))
  {
    hide Do, Can, Wraps, Coming, Common, InPlay, UnderWay, OrderlyInv, ListInv, WorkerInv, CountInv, GateInv, FlushInv;
    hide AskedInv, RetryInv, OwedInv, SnapInv, TodoInv, MissInv, WakeInv, Config.DriversOf;
    var s' := Do(c, s, t);
    forall r, d | InPlay(c, s', d) && r in c.DriversOf(d) ensures Coming(c, s', r, d) {
      PlayStep(c, s, t, d);
      NotBoundYet(c, s, d);
      NotBoundYet(c, s', d);
      ComingStep(c, s, t, r, d);
    }
  }

  lemma NotBoundYet(c: Config, s: State, d: Device)
    requires InPlay(c, s, d)
    ensures d !in s.bound
  {
  }

  lemma RetriedStep(c: Config, s: State, t: Step)
    requires Retried(c, s) && WalkWhole(c, s) && FullInv(c, s) && OrderlyInv(c, s)
    requires !s.deferAll && Can(c, s, t) && Fair(c, t) && !Wraps(c, s, t)
    ensures Retried(c, Do(c, s, t))
  {
    assert s.gone == {};
    hide Wraps, Common, SpliceAhead, AllComing, WalkWhole, OrderlyInv, ListInv, WorkerInv, CountInv, GateInv, FlushInv;
    hide AskedInv, RetryInv, OwedInv, SnapInv, TodoInv, MissInv, WakeInv, DoProbe, DoTrig, DoWork, DoPause, DoEnds;
    hide CanMove, CanWork, CanPause;
    if AllComing(c, s) {
      AllComingStep(c, s, t);
    } else if IsSplice(t) {
      AfterSplice(c, s, t.site);
    } else {
      AheadStep(c, s, t);
    }
  }

  lemma BindRetries(c: Config, s: State, d: Device)
    requires Can(c, s, Probe(d, Bind))
    ensures SpliceAhead(DoProbe(c, s, d, Bind))
  {
    assert Committed(DoProbe(c, s, d, Bind), d);
  }

  /** Once something is bound every driver gets its turn. */
  lemma {:induction false} RetriedAlong(c: Config, s: State, us: seq<Step>, s': State)
    requires FullInv(c, s) && OrderlyInv(c, s) && WalkWhole(c, s) && !s.deferAll
    requires Exec(c, s, us, s') && Unwrapped(c, s, us) && (forall u :: u in us ==> Fair(c, u))
    requires Retried(c, s) || s'.bound != s.bound
    ensures Retried(c, s')
    decreases |us|
  {
    hide Wraps, Retried, Common, UnderWay, WalkWhole, OrderlyInv, SnapInv, TodoInv, MissInv, WakeInv;
    hide Do, Can, ListInv, WorkerInv, CountInv, GateInv, FlushInv, AskedInv, RetryInv, OwedInv;
    if us != [] {
      var t, u := us[0], Do(c, s, us[0]);
      assert Fair(c, t);
      FairStep(c, s, t);
      WalkStep(c, s, t);
      if Retried(c, s) {
        RetriedStep(c, s, t);
      } else if u.bound != s.bound {
        SomethingBound(c, s, t);
      }
      assert forall v :: v in us[1..] ==> v in us;
      RetriedAlong(c, u, us[1..], s');
    }
  }

  lemma SomethingBound(c: Config, s: State, t: Step)
    requires Can(c, s, t) && UnderWay(t) && Do(c, s, t).bound != s.bound
    ensures t.Probe? && t.m.Bind? && Retried(c, Do(c, s, t))
  {
    hide SpliceAhead, AllComing, DoProbe, CanMove;
    if !t.Probe? { OthersBindNothing(c, s, t); } else { BoundAfter(c, s, t.d, t.m); }
    BindRetries(c, s, t.d);
  }

  // ---------------------------------------------------------------- nothing else gives a driver its turn

  lemma CommittedBack(c: Config, s: State, t: Step, d: Device)
    requires ListInv(s) && Can(c, s, t) && UnderWay(t) && !IsSplice(t) && !(t.Probe? && t.m.Bind?)
    requires Committed(Do(c, s, t), d)
    ensures Committed(s, d) || Stale(s, d)
  {
    hide NoDup, DoPause, Del, AddTail;
    if t.Work? {
      WorkCommits(c, s, t.w, d);
    } else if t.Leave? {
      hide AfterLeave;
    }
  }

  lemma WorkCommits(c: Config, s: State, w: WorkerMove, d: Device)
    requires CanWork(s, w) && Committed(DoWork(c, s, w), d)
    ensures Committed(s, d)
  {
    hide AddByMatch;
  }

  lemma TriggerBack(c: Config, s: State, t: Step, site: Site)
    requires Can(c, s, t) && UnderWay(t) && !IsSplice(t)
    requires site in Do(c, s, t).triggers && !Do(c, s, t).triggers[site].Spliced?
    ensures (site in s.triggers && !s.triggers[site].Spliced?) || (site.At? && Committed(s, site.d))
  {
    hide DoProbe, DoWork, DoEnds;
    if t.Probe? { ProbeTriggers(c, s, t.d, t.m, site); }
  }

  lemma ProbeTriggers(c: Config, s: State, d: Device, m: Move, site: Site)
    requires Can(c, s, Probe(d, m)) && site in DoProbe(c, s, d, m).triggers
    ensures (site in s.triggers && DoProbe(c, s, d, m).triggers[site] == s.triggers[site]) ||
      (site == At(d) && Committed(s, d))
  {
    hide Del, AddTail;
  }

  lemma StaleBack(c: Config, s: State, t: Step, d: Device)
    requires Can(c, s, t) && UnderWay(t) && !IsSplice(t) && Stale(Do(c, s, t), d)
    ensures Stale(s, d)
  {
    hide DoProbe, DoWork, DoPause, DoEnds;
    match t
    case Probe(e, m) => ProbeStales(c, s, e, m, d);
    case Work(w) => WorkStales(c, s, w, d);
    case Leave(e) => LeaveStales(c, s, e, d);
    case _ =>
  }

  lemma ProbeStales(c: Config, s: State, e: Device, m: Move, d: Device)
    requires Can(c, s, Probe(e, m)) && Stale(DoProbe(c, s, e, m), d)
    ensures Stale(s, d)
  {
    BoundAfter(c, s, e, m);
    hide Del, AddTail, Except, Config.Needs;
  }

  lemma LeaveStales(c: Config, s: State, e: Device, d: Device)
    requires Can(c, s, Leave(e)) && Stale(DoEnds(s, Leave(e)), d)
    ensures Stale(s, d)
  {
    hide AfterLeave;
  }

  lemma WorkStales(c: Config, s: State, w: WorkerMove, d: Device)
    requires CanWork(s, w) && Stale(DoWork(c, s, w), d)
    ensures Stale(s, d)
  {
    hide AddByMatch;
  }

  /** Without a bind, whoever is about to splice was so before. */
  lemma AheadBack(c: Config, s: State, t: Step)
    requires ListInv(s) && Can(c, s, t) && UnderWay(t) && !(t.Probe? && t.m.Bind?)
    requires SpliceAhead(Do(c, s, t)) && s.enable && !s.deferAll
    ensures SpliceAhead(s)
  {
    GateKept(c, s, t);
    hide Do, Committed, Stale, ListInv;
    var s' := Do(c, s, t);
    if IsSplice(t) {
      assert s.triggers[t.site].Armed?;
    } else if site :| site in s'.triggers && !s'.triggers[site].Spliced? {
      TriggerBack(c, s, t, site);
    } else if d :| Committed(s', d) {
      CommittedBack(c, s, t, d);
    } else {
      var d :| Stale(s', d);
      StaleBack(c, s, t, d);
    }
  }

  lemma CoveredProbeBack(c: Config, s: State, e: Device, m: Move, r: Driver, d: Device)
    requires ListInv(s) && AskedInv(s) && Can(c, s, Probe(e, m)) && Covered(DoProbe(c, s, e, m), r, d)
    ensures Covered(s, r, d)
  {
    if e == d {
      hide ListInv, AskedInv;
      CoveredOwnBack(c, s, d, m, r);
    } else {
      hide ListInv, AskedInv, Next, Covered;
      CoveredFrame(DoProbe(c, s, e, m), s, r, d);
    }
  }

  lemma CoveredOwnBack(c: Config, s: State, d: Device, m: Move, r: Driver)
    requires ListInv(s) && AskedInv(s) && Can(c, s, Probe(d, m)) && Covered(DoProbe(c, s, d, m), r, d)
    ensures Covered(s, r, d)
  {
    hide NoDup, Config.DriversOf, Config.Needs;
  }

  lemma CoveredWorkBack(c: Config, s: State, w: WorkerMove, r: Driver, d: Device)
    requires RetryInv(c, s) && CanWork(s, w) && s.matching == {} && Covered(DoWork(c, s, w), r, d)
    ensures Covered(s, r, d)
  {
    hide Config.DriversOf;
  }

  lemma CoveredLeaveBack(c: Config, s: State, e: Device, r: Driver, d: Device)
    requires Can(c, s, Leave(e)) && Covered(DoEnds(s, Leave(e)), r, d)
    ensures Covered(s, r, d)
  {
  }

  /** Without a splice, whoever's turn is to come had it to come before. */
  lemma CoveredBack(c: Config, s: State, t: Step, r: Driver, d: Device)
    requires Inv(c, s) && OrderlyInv(c, s)
    requires Can(c, s, t) && UnderWay(t) && !IsSplice(t) && Covered(Do(c, s, t), r, d)
    ensures Covered(s, r, d)
  {
    assert !t.MatchDefer? && s.matching == {};
    hide OrderlyInv, ListInv, WorkerInv, CountInv, GateInv, FlushInv, AskedInv, RetryInv, OwedInv;
    hide DoProbe, DoWork, DoEnds, CanMove, CanWork;
    match t
    case Probe(e, m) => CoveredProbeBack(c, s, e, m, r, d);
    case Work(w) => CoveredWorkBack(c, s, w, r, d);
    case Leave(e) => CoveredLeaveBack(c, s, e, r, d);
    case Trig(_, _) =>
    case Pause(_) =>
  }

  /** Some driver whose turn is to come finds its suppliers bound already. */
  ghost predicate Turn(c: Config, s: State) {
    exists r, d :: InPlay(c, s, d) && r in c.DriversOf(d) && Covered(s, r, d) && c.Needs(r, d) <= s.bound
  }

  lemma TurnTaken(c: Config, s: State, t: Step)
    requires Inv(c, s) && OrderlyInv(c, s) && Can(c, s, t) && t.Probe? && t.m.Bind?
    ensures Turn(c, s)
  {
    hide InPlay, ListInv, WorkerInv, CountInv, GateInv, FlushInv, AskedInv, RetryInv, OwedInv;
    BindInPlay(c, s, t.d);
    assert Covered(s, s.probes[t.d].drv, t.d);
  }

  lemma TurnBack(c: Config, s: State, t: Step)
    requires Inv(c, s) && OrderlyInv(c, s)
    requires Can(c, s, t) && UnderWay(t) && !IsSplice(t) && Do(c, s, t).bound == s.bound && Turn(c, Do(c, s, t))
    ensures Turn(c, s)
  {
    hide Do, Can, UnderWay, InPlay, Covered, OrderlyInv, ListInv, WorkerInv, CountInv, GateInv, FlushInv, AskedInv;
    hide RetryInv, OwedInv, Config.DriversOf, Config.Needs;
    var u := Do(c, s, t);
    var r, d :| InPlay(c, u, d) && r in c.DriversOf(d) && Covered(u, r, d) && c.Needs(r, d) <= u.bound;
    PlayStep(c, s, t, d);
    CoveredBack(c, s, t, r, d);
  }

  /** What is bound first, when nobody is about to splice, was ready and had its turn to come. */
  lemma {:induction false} FirstBound(c: Config, s: State, us: seq<Step>, s': State)
    requires Inv(c, s) && OrderlyInv(c, s) && s.enable && !s.deferAll && !SpliceAhead(s)
    requires Exec(c, s, us, s') && (forall u :: u in us ==> UnderWay(u)) && s'.bound != s.bound
    ensures Turn(c, s)
    decreases |us|
  {
    hide Do, Can, UnderWay, SpliceAhead, Turn, OrderlyInv, ListInv, WorkerInv, CountInv, GateInv, FlushInv, AskedInv;
    hide RetryInv, OwedInv;
    var t, u := us[0], Do(c, s, us[0]);
    assert t in us;
    if u.bound != s.bound {
      SomethingBound(c, s, t);
      TurnTaken(c, s, t);
    } else {
      NoSpliceYet(c, s, t);
      UnderWayIsOrderly(t);
      OrderlyStep(c, s, t);
      InvStep(c, s, t);
      GateKept(c, s, t);
      assert forall v :: v in us[1..] ==> v in us;
      FirstBound(c, u, us[1..], s');
      TurnBack(c, s, t);
    }
  }

  lemma NoSpliceYet(c: Config, s: State, t: Step)
    requires !SpliceAhead(s) && s.enable && !s.deferAll && ListInv(s)
    requires Can(c, s, t) && UnderWay(t) && Do(c, s, t).bound == s.bound
    ensures !SpliceAhead(Do(c, s, t)) && !IsSplice(t)
  {
    assert !IsSplice(t);
    hide SpliceAhead, DoProbe, DoTrig, DoWork, DoPause, DoEnds, ListInv, CanMove, CanTrig, CanWork, CanPause;
    if t.Probe? && t.m.Bind? {
      BindBinds(c, s, t.d);
    } else if SpliceAhead(Do(c, s, t)) {
      AheadBack(c, s, t);
    }
  }

  lemma BindBinds(c: Config, s: State, d: Device)
    requires ListInv(s) && Can(c, s, Probe(d, Bind))
    ensures DoProbe(c, s, d, Bind).bound != s.bound
  {
    hide NoDup;
    BoundAfter(c, s, d, Bind);
    assert d in DoProbe(c, s, d, Bind).bound;
  }
}
