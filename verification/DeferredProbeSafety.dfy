/** What every run of the deferred-probe step system keeps. */
module DeferredProbeSafety {
  import opened ProbeLists
  import opened DeferredProbe

  // ---------------------------------------------------------------- lists

  lemma DelPlaces(p: seq<Device>, a: seq<Device>, d: Device)
    requires NoDup(p + a)
    ensures NoDup(Without(p, d) + Without(a, d))
  {
    WithoutOfConcat(p, a, d);
    WithoutKeepsNoDup(p + a, d);
  }

  lemma AddPlaces(p: seq<Device>, a: seq<Device>, d: Device)
    requires NoDup(p + a) && d !in p && d !in a
    ensures NoDup(p + [d] + a)
  {
    NoDupConcat(p, a);
    NoDupConcat(p, [d]);
    NoDupConcat(p + [d], a);
  }

  lemma SplicePlaces(p: seq<Device>, a: seq<Device>)
    requires NoDup(p + a)
    ensures NoDup([] + (a + p))
  {
    NoDupConcat(p, a);
    NoDupConcat(a, p);
    assert [] + (a + p) == a + p;
  }

  lemma PopPlaces(p: seq<Device>, a: seq<Device>)
    requires NoDup(p + a) && a != []
    ensures NoDup(p + a[1..]) && a[0] !in p && a[0] !in a[1..]
  {
    NoDupConcat(p, a);
    NoDupConcat(p, a[1..]);
  }

  lemma ListUnlist(c: Config, s: State, d: Device)
    requires ListInv(s) && Can(c, s, Probe(d, Unlist))
    ensures ListInv(DoProbe(c, s, d, Unlist))
  {
    hide NoDup;
    DelPlaces(s.pending, s.active, d);
  }

  lemma ListAdd(c: Config, s: State, d: Device)
    requires ListInv(s) && Can(c, s, Probe(d, Add))
    ensures ListInv(DoProbe(c, s, d, Add))
  {
    hide NoDup;
    if !s.Listed(d) { AddPlaces(s.pending, s.active, d); }
  }

  lemma ListBind(c: Config, s: State, d: Device)
    requires ListInv(s) && Can(c, s, Probe(d, Bind))
    ensures ListInv(DoProbe(c, s, d, Bind))
  {
    hide NoDup;
  }

  /** The steps of a probe that change neither a list nor what is bound. */
  lemma ListQuiet(c: Config, s: State, d: Device, m: Move)
    requires ListInv(s) && Can(c, s, Probe(d, m)) && !m.Unlist? && !m.Add? && !m.Bind?
    ensures ListInv(DoProbe(c, s, d, m))
  {
    hide NoDup, Del, AddTail, Except;
    var s' := DoProbe(c, s, d, m);
    assert s' == s.(probes := s'.probes, owed := s'.owed, probing := s'.probing, triggers := s'.triggers);
  }

  lemma ListProbe(c: Config, s: State, d: Device, m: Move)
    requires ListInv(s) && Can(c, s, Probe(d, m))
    ensures ListInv(DoProbe(c, s, d, m))
  {
    hide ListInv, DoProbe;
    match m
    case Unlist => ListUnlist(c, s, d);
    case Add => ListAdd(c, s, d);
    case Bind => ListBind(c, s, d);
    case _ => ListQuiet(c, s, d, m);
  }

  lemma ListPop(c: Config, s: State)
    requires ListInv(s) && CanWork(s, Pop)
    ensures ListInv(DoWork(c, s, Pop))
  {
    hide NoDup;
    PopPlaces(s.pending, s.active);
  }

  lemma ListWork(c: Config, s: State, w: WorkerMove)
    requires ListInv(s) && CanWork(s, w)
    ensures ListInv(DoWork(c, s, w))
  {
    hide NoDup, AddByMatch;
    match w
    case MatchCut(miss) => ListByMatch(s, miss);
    case Pop => ListPop(c, s);
    case _ =>
  }

  lemma ListTrig(s: State, site: Site, k: TriggerMove)
    requires ListInv(s) && CanTrig(s, site, k)
    ensures ListInv(DoTrig(s, site, k))
  {
    hide NoDup;
    if k.Splice? { SplicePlaces(s.pending, s.active); }
  }

  lemma ListDrop(s: State, d: Device)
    requires ListInv(s) && d in s.gone
    ensures ListInv(Del(s, d))
  {
    hide NoDup;
    DelPlaces(s.pending, s.active, d);
  }

  lemma ListByMatch(s: State, miss: Miss)
    requires ListInv(s)
    ensures ListInv(AddByMatch(s, miss))
  {
    hide NoDup;
    var s' := AddByMatch(s, miss);
    assert s' == s.(pending := s'.pending, byMatch := s'.byMatch, late := s'.late, asked := s'.asked,
      matching := s'.matching);
    if s.Listed(miss.d) {
      assert s'.pending == s.pending && s'.byMatch == s.byMatch;
    } else {
      AddPlaces(s.pending, s.active, miss.d);
      assert s'.pending == s.pending + [miss.d] && s'.byMatch == s.byMatch + {miss.d};
    }
  }

  lemma ListDevice(c: Config, s: State, t: Step)
    requires ListInv(s) && Can(c, s, t) && (t.MatchMiss? || t.MatchDefer? || t.Release? || t.Kill? || t.Drop?)
    ensures ListInv(DoDevice(s, t))
  {
    hide NoDup, Del, AddByMatch;
    match t
    case Drop(d) => ListDrop(s, d);
    case MatchDefer(miss) => ListByMatch(s, miss);
    case _ =>
  }

  lemma ListEnds(c: Config, s: State, t: Step)
    requires ListInv(s) && Can(c, s, t) && (t.Snap? || t.Attach? || t.Leave?)
    ensures ListInv(DoEnds(s, t))
  {
    hide NoDup;
  }

  lemma ListStep(c: Config, s: State, t: Step)
    requires ListInv(s) && Can(c, s, t)
    ensures ListInv(Do(c, s, t))
  {
    hide NoDup, ListInv, DoProbe, DoWork, DoTrig, DoPause, DoDevice, DoEnds;
    match t
    case Probe(d, m) => ListProbe(c, s, d, m);
    case Work(w) => ListWork(c, s, w);
    case Trig(site, k) => ListTrig(s, site, k);
    case Pause(_) => ListFrame(s, Do(c, s, t));
    case Enable => ListFrame(s, Do(c, s, t));
    case Again => ListFrame(s, Do(c, s, t));
    case _ => if t.Snap? || t.Attach? || t.Leave? { ListEnds(c, s, t); } else { ListDevice(c, s, t); }
  }

  lemma ListFrame(s: State, s': State)
    requires ListInv(s) &&
      s' == s.(gate := s'.gate, deferAll := s'.deferAll, enable := s'.enable, triggers := s'.triggers)
    ensures ListInv(s')
  {
    hide NoDup;
  }

  // ---------------------------------------------------------------- the worker

  /** A probing thread leaves the trigger calls in progress alone. */
  lemma TriggersKept(c: Config, s: State, d: Device, m: Move, site: Site)
    requires Can(c, s, Probe(d, m)) && site in s.triggers
    ensures site in DoProbe(c, s, d, m).triggers && DoProbe(c, s, d, m).triggers[site] == s.triggers[site]
  {
    hide Next, Del, AddTail;
  }

  /** A trigger call that has spliced stays so until it queues the work. */
  lemma SplicedStep(c: Config, s: State, t: Step, site: Site)
    requires Can(c, s, t) && site in s.triggers && s.triggers[site].Spliced?
    ensures Do(c, s, t).queued || (site in Do(c, s, t).triggers && Do(c, s, t).triggers[site].Spliced?) ||
      t == Work(Wake)
  {
    hide DoProbe, DoWork, DoDevice, DoEnds;
    if t.Probe? { TriggersKept(c, s, t.d, t.m, site); }
  }

  lemma WorkerStep(c: Config, s: State, t: Step)
    requires WorkerInv(s) && Can(c, s, t)
    ensures WorkerInv(Do(c, s, t))
  {
    hide Next, AddTail;
    var s' := Do(c, s, t);
    if t.Trig? && t.k.Splice? {
      assert s'.triggers[t.site].Spliced?;
    } else if s.active != [] && s.worker.Sleeping? && !s.queued {
      var site :| site in s.triggers && s.triggers[site].Spliced?;
      SplicedStep(c, s, t, site);
    } else {
      NewlyActive(c, s, t);
    }
  }

  lemma WorkerStays(c: Config, s: State, w: WorkerMove)
    requires CanWork(s, w)
    ensures s.active == [] ==> DoWork(c, s, w).active == []
    ensures s.active != [] && (!s.worker.Sleeping? || s.queued) ==>
      !DoWork(c, s, w).worker.Sleeping? || DoWork(c, s, w).queued
  {
    hide AddByMatch;
  }

  lemma ActiveProbe(c: Config, s: State, d: Device, m: Move)
    requires Can(c, s, Probe(d, m))
    ensures s.active == [] ==> DoProbe(c, s, d, m).active == []
  {
    hide Next, CanMove, AddTail;
  }

  lemma ActiveDevice(c: Config, s: State, t: Step)
    requires Can(c, s, t) && (t.MatchMiss? || t.MatchDefer? || t.Release? || t.Kill? || t.Drop?)
    ensures s.active == [] ==> DoDevice(s, t).active == []
  {
    hide AddByMatch;
  }

  lemma UpAtEnds(c: Config, s: State, t: Step)
    requires Can(c, s, t) && (t.Snap? || t.Attach? || t.Leave?)
    ensures DoEnds(s, t).worker.Sleeping? == s.worker.Sleeping?
  {
    hide AfterLeave;
  }

  /** Only a splice brings a device onto an empty active list; a worker that is up stays up while the list
      is not empty. */
  lemma NewlyActive(c: Config, s: State, t: Step)
    requires Can(c, s, t) && !(t.Trig? && t.k.Splice?)
    ensures s.active == [] ==> Do(c, s, t).active == []
    ensures s.active != [] && (!s.worker.Sleeping? || s.queued) ==> !Do(c, s, t).worker.Sleeping? || Do(c, s, t).queued
  {
    hide DoProbe, DoPause, DoWork, DoEnds, DoDevice;
    match t
    case Probe(d, m) => ActiveProbe(c, s, d, m);
    case Work(w) => WorkerStays(c, s, w);
    case Trig(_, _) =>
    case Pause(_) =>
    case Enable =>
    case Again =>
    case _ => if t.Snap? || t.Attach? || t.Leave? { UpAtEnds(c, s, t); } else { ActiveDevice(c, s, t); }
  }

  // ---------------------------------------------------------------- probe_count

  function Weight(a: Attempt): nat {
    if a.Counted() && !a.stage.Snapped? then 1 else 0
  }

  lemma CountedRest(p: map<Device, Attempt>, d: Device)
    requires d in p
    ensures |CountedProbes(p)| == |CountedProbes(p) - {d}| + Weight(p[d])
  {
    var rest := CountedProbes(p) - {d};
    assert CountedProbes(p) == if Weight(p[d]) == 1 then rest + {d} else rest;
  }

  /** One thread's move changes the number of counted probes by that thread alone. */
  lemma CountedAfter(p: map<Device, Attempt>, d: Device, a: Attempt)
    ensures |CountedProbes(p[d := a])| == |CountedProbes(p)| + Weight(a) - (if d in p then Weight(p[d]) else 0)
  {
    CountedRest(p[d := a], d);
    assert CountedProbes(p[d := a]) - {d} == CountedProbes(p) - {d};
    if d in p { CountedRest(p, d); } else { assert CountedProbes(p) - {d} == CountedProbes(p); }
  }

  lemma CountProbe(c: Config, s: State, d: Device, m: Move)
    requires CountInv(s) && Can(c, s, Probe(d, m))
    ensures CountInv(DoProbe(c, s, d, m))
  {
    hide CountedProbes, Del, AddTail;
    CountedAfter(s.probes, d, DoProbe(c, s, d, m).probes[d]);
  }

  lemma CountEnds(c: Config, s: State, t: Step)
    requires CountInv(s) && Can(c, s, t) && (t.Snap? || t.Attach? || t.Leave?)
    ensures CountInv(DoEnds(s, t))
  {
    hide CountedProbes, AfterLeave;
    var s' := DoEnds(s, t);
    if t.Leave? {
      CountedAfter(s'.probes, t.d, s.probes[t.d]);
      assert s'.probes[t.d := s.probes[t.d]] == s.probes;
    } else {
      CountedAfter(s.probes, t.d, s'.probes[t.d]);
    }
  }

  lemma CountWork(c: Config, s: State, w: WorkerMove)
    requires CountInv(s) && CanWork(s, w)
    ensures CountInv(DoWork(c, s, w))
  {
    hide CountedProbes, AddByMatch;
    if w.Try? { CountedAfter(s.probes, s.worker.d, Attempt(w.r, Retry, Snapped(s.count))); }
  }

  lemma CountStep(c: Config, s: State, t: Step)
    requires CountInv(s) && Can(c, s, t)
    ensures CountInv(Do(c, s, t))
  {
    hide CountedProbes, DoProbe, DoWork, DoTrig, DoPause, DoDevice, DoEnds;
    match t
    case Probe(d, m) => CountProbe(c, s, d, m);
    case Work(w) => CountWork(c, s, w);
    case _ => if t.Snap? || t.Attach? || t.Leave? { CountEnds(c, s, t); }
  }

  // ---------------------------------------------------------------- blocking

  lemma GateProbe(c: Config, s: State, d: Device, m: Move)
    requires GateInv(s) && CountInv(s) && Can(c, s, Probe(d, m))
    ensures GateInv(DoProbe(c, s, d, m))
  {
    hide Del, AddTail;
  }

  lemma GatePause(s: State, g: GateMove)
    requires GateInv(s) && CountInv(s) && CanPause(s, g)
    ensures GateInv(DoPause(s, g))
  {
  }

  lemma GateWork(c: Config, s: State, w: WorkerMove)
    requires GateInv(s) && CanWork(s, w)
    ensures GateInv(DoWork(c, s, w))
  {
    hide AddByMatch;
  }

  lemma GateEnds(c: Config, s: State, t: Step)
    requires GateInv(s) && Can(c, s, t) && (t.Snap? || t.Attach? || t.Leave?)
    ensures GateInv(DoEnds(s, t))
  {
    hide AfterLeave;
  }

  lemma GateStep(c: Config, s: State, t: Step)
    requires GateInv(s) && CountInv(s) && Can(c, s, t)
    ensures GateInv(Do(c, s, t))
  {
    hide CountedProbes, DoProbe, DoWork, DoTrig, DoPause, DoDevice, DoEnds;
    match t
    case Probe(d, m) => GateProbe(c, s, d, m);
    case Work(w) => GateWork(c, s, w);
    case Pause(g) => GatePause(s, g);
    case _ => if t.Snap? || t.Attach? || t.Leave? { GateEnds(c, s, t); }
  }

  lemma FlushStep(c: Config, s: State, t: Step)
    requires FlushInv(s) && Can(c, s, t)
    ensures FlushInv(Do(c, s, t))
  {
    hide DoProbe, DoTrig, DoWork, DoPause, DoEnds, DoDevice;
    match t
    case Work(w) => FlushWork(c, s, w);
    case Trig(site, k) => FlushTrig(s, site, k);
    case Pause(g) => FlushPause(s, g);
    case _ => if t.Snap? || t.Attach? || t.Leave? { UpAtEnds(c, s, t); }
  }

  lemma FlushWork(c: Config, s: State, w: WorkerMove)
    requires FlushInv(s) && CanWork(s, w)
    ensures FlushInv(DoWork(c, s, w))
  {
    hide AddByMatch;
  }

  lemma FlushTrig(s: State, site: Site, k: TriggerMove)
    requires FlushInv(s) && CanTrig(s, site, k)
    ensures FlushInv(DoTrig(s, site, k))
  {
  }

  lemma FlushPause(s: State, g: GateMove)
    requires FlushInv(s) && CanPause(s, g)
    ensures FlushInv(DoPause(s, g))
  {
  }

  // ---------------------------------------------------------------- snapshots and suppliers

  lemma SnapProbe(c: Config, s: State, d: Device, m: Move)
    requires SnapInv(s) && Can(c, s, Probe(d, m))
    ensures SnapInv(DoProbe(c, s, d, m))
  {
    hide Del, AddTail;
  }

  lemma SnapWork(c: Config, s: State, w: WorkerMove)
    requires SnapInv(s) && CanWork(s, w)
    ensures SnapInv(DoWork(c, s, w))
  {
    hide AddByMatch;
  }

  lemma SnapEnds(c: Config, s: State, t: Step)
    requires SnapInv(s) && Can(c, s, t) && (t.Snap? || t.Attach? || t.Leave?)
    ensures SnapInv(DoEnds(s, t))
  {
    hide AfterLeave;
  }

  lemma SnapTrig(s: State, site: Site, k: TriggerMove)
    requires SnapInv(s) && CanTrig(s, site, k)
    ensures SnapInv(DoTrig(s, site, k))
  {
  }

  lemma SnapStep(c: Config, s: State, t: Step)
    requires SnapInv(s) && Can(c, s, t)
    ensures SnapInv(Do(c, s, t))
  {
    hide DoProbe, DoWork, DoTrig, DoPause, DoDevice, DoEnds;
    match t
    case Probe(d, m) => SnapProbe(c, s, d, m);
    case Work(w) => SnapWork(c, s, w);
    case Trig(site, k) => SnapTrig(s, site, k);
    case _ => if t.Snap? || t.Attach? || t.Leave? { SnapEnds(c, s, t); }
  }

  lemma TodoProbe(c: Config, s: State, d: Device, m: Move)
    requires TodoInv(c, s) && Can(c, s, Probe(d, m))
    ensures TodoInv(c, DoProbe(c, s, d, m))
  {
    hide Del, AddTail;
  }

  lemma TodoWork(c: Config, s: State, w: WorkerMove)
    requires TodoInv(c, s) && CanWork(s, w)
    ensures TodoInv(c, DoWork(c, s, w))
  {
    hide AddByMatch;
  }

  lemma TodoStep(c: Config, s: State, t: Step)
    requires TodoInv(c, s) && Can(c, s, t)
    ensures TodoInv(c, Do(c, s, t))
  {
    hide DoProbe, DoWork, DoTrig, DoPause, DoDevice;
    match t
    case Probe(d, m) => TodoProbe(c, s, d, m);
    case Work(w) => TodoWork(c, s, w);
    case _ =>
  }

  // ---------------------------------------------------------------- wake-ups

  /** The re-read of the counter fails to see that it moved. */
  predicate Wraps(c: Config, s: State, t: Step) {
    t.Probe? && t.m.Recheck? && Can(c, s, t) && s.probes[t.d].stage.snap != s.count &&
    s.probes[t.d].stage.snap % COUNTER_SPAN == s.count % COUNTER_SPAN
  }

  /** A trigger call on its way to the critical section stays on its way until it is there. */
  lemma TriggerStep(c: Config, s: State, t: Step, site: Site)
    requires Can(c, s, t) && t != Trig(site, Splice)
    requires site in s.triggers && !s.triggers[site].Spliced?
    ensures WillSplice(Do(c, s, t))
  {
    hide DoProbe, DoWork, DoDevice, DoEnds;
    if t.Probe? { TriggersKept(c, s, t.d, t.m, site); }
    var s' := Do(c, s, t);
    assert !s'.enable || (site in s'.triggers && !s'.triggers[site].Spliced?);
  }

  /** The committed thread's own move. */
  lemma CommittedMove(c: Config, s: State, d: Device, m: Move)
    requires Can(c, s, Probe(d, m)) && !Wraps(c, s, Probe(d, m)) && Committed(s, d)
    ensures WillSplice(DoProbe(c, s, d, m))
  {
    hide Del, AddTail;
    var s' := DoProbe(c, s, d, m);
    if m.Unlist? || (m.Retrigger? && !s.deferAll) {
      assert s'.triggers[At(d)].Check?;
    } else if !m.Retrigger? {
      assert Committed(s', d);
    }
  }

  lemma CommittedStep(c: Config, s: State, t: Step, d: Device)
    requires Can(c, s, t) && !Wraps(c, s, t) && Committed(s, d)
    requires !(t.Trig? && t.k.Splice?)
    ensures WillSplice(Do(c, s, t))
  {
    if t.Probe? && t.d == d {
      CommittedMove(c, s, d, t.m);
    } else {
      AttemptKept(c, s, t, d);
      hide Do;
      assert Committed(Do(c, s, t), d);
    }
  }

  /** Nobody else touches an attempt that is not over, and only a splice moves the counter. */
  lemma AttemptKept(c: Config, s: State, t: Step, d: Device)
    requires Can(c, s, t) && !(t.Trig? && t.k.Splice?) && !(t.Probe? && t.d == d)
    requires d in s.probes && !s.probes[d].stage.Leaving?
    ensures d in Do(c, s, t).probes && Do(c, s, t).probes[d] == s.probes[d] && Do(c, s, t).count == s.count
  {
    hide DoProbe, DoWork, DoPause, DoEnds, DoDevice;
    match t
    case Work(w) => AttemptKeptByWork(c, s, w, d);
    case _ => if t.Snap? || t.Attach? || t.Leave? { AttemptKeptAtEnds(c, s, t, d); }
  }

  lemma AttemptKeptByWork(c: Config, s: State, w: WorkerMove, d: Device)
    requires CanWork(s, w) && d in s.probes
    ensures d in DoWork(c, s, w).probes && DoWork(c, s, w).probes[d] == s.probes[d]
  {
    hide AddByMatch;
  }

  lemma AttemptKeptAtEnds(c: Config, s: State, t: Step, d: Device)
    requires Can(c, s, t) && (t.Snap? || t.Attach? || t.Leave?) && d in s.probes && !s.probes[d].stage.Leaving?
    ensures d in DoEnds(s, t).probes && DoEnds(s, t).probes[d] == s.probes[d]
  {
    hide AfterLeave;
  }

  lemma WillSpliceStep(c: Config, s: State, t: Step)
    requires Can(c, s, t) && !(t.Trig? && t.k.Splice?) && !Wraps(c, s, t) && WillSplice(s)
    ensures WillSplice(Do(c, s, t))
  {
    hide DoProbe, DoWork, DoTrig, DoDevice, DoEnds, Committed;
    var s' := Do(c, s, t);
    if site :| site in s.triggers && !s.triggers[site].Spliced? {
      TriggerStep(c, s, t, site);
    } else if d :| Committed(s, d) {
      CommittedStep(c, s, t, d);
    } else if t == Pause(Unblock) {
      assert s'.triggers[Pm].Check?;
    } else if t.Enable? {
      assert s'.triggers[Boot].Check?;
    }
  }

  /** A device that becomes bound is about to trigger. */
  lemma BoundStep(c: Config, s: State, t: Step, x: Device)
    requires Can(c, s, t) && x !in s.bound && x in Do(c, s, t).bound
    ensures t == Probe(x, Bind) && Committed(Do(c, s, t), x)
  {
    hide DoProbe, DoWork, DoTrig, DoPause, DoEnds, Del, AddByMatch;
    if t.Probe? { BoundProbe(c, s, t.d, t.m, x); }
  }

  lemma BoundProbe(c: Config, s: State, d: Device, m: Move, x: Device)
    requires Can(c, s, Probe(d, m)) && x !in s.bound && x in DoProbe(c, s, d, m).bound
    ensures d == x && m == Bind && Committed(DoProbe(c, s, d, m), x)
  {
    hide Del, AddTail;
  }

  lemma WaitsStep(c: Config, s: State, t: Step, r: Driver, d: Device)
    requires Can(c, s, t) && Waits(c, s, r, d)
    ensures Waits(c, Do(c, s, t), r, d) || WillSplice(Do(c, s, t))
  {
    hide Do;
    var x :| x in c.Needs(r, d) && x !in s.bound;
    if x in Do(c, s, t).bound { BoundStep(c, s, t, x); }
  }

  /** A match callback adds its device while the counter is what it was when it missed a supplier. */
  predicate InTime(s: State, t: Step, r: Driver, d: Device) {
    var miss := Miss(r, d, s.count);
    miss in s.matching && (t == MatchDefer(miss) || t == Work(MatchCut(miss)))
  }

  /** A pair that is newly asked for was deferring, or missed a supplier in its match callback just now. */
  lemma AskedOrigin(c: Config, s: State, t: Step, r: Driver, d: Device)
    requires Can(c, s, t) && (r, d) in Do(c, s, t).asked && (r, d) !in s.asked
    ensures (t == Probe(d, Add) && s.probes[d].drv == r) || InTime(s, t, r, d)
  {
    hide DoProbe, DoTrig, DoWork, DoPause, DoEnds, DoDevice;
    match t
    case Probe(e, m) => AskedByProbe(c, s, e, m, r, d);
    case Work(w) => AskedByWork(c, s, w, r, d);
    case Trig(_, _) =>
    case Pause(_) =>
    case Enable =>
    case Again =>
    case _ => if !t.Snap? && !t.Attach? && !t.Leave? { AskedByDevice(c, s, t, r, d); }
  }

  lemma AskedByWork(c: Config, s: State, w: WorkerMove, r: Driver, d: Device)
    requires CanWork(s, w) && (r, d) in DoWork(c, s, w).asked && (r, d) !in s.asked
    ensures InTime(s, Work(w), r, d)
  {
    hide AddTail;
  }

  lemma AskedByDevice(c: Config, s: State, t: Step, r: Driver, d: Device)
    requires Can(c, s, t) && (t.MatchMiss? || t.MatchDefer? || t.Release? || t.Kill? || t.Drop?)
    requires (r, d) in DoDevice(s, t).asked && (r, d) !in s.asked
    ensures InTime(s, t, r, d)
  {
    hide AddTail, Without;
  }

  lemma AskedByProbe(c: Config, s: State, e: Device, m: Move, r: Driver, d: Device)
    requires Can(c, s, Probe(e, m)) && (r, d) in DoProbe(c, s, e, m).asked && (r, d) !in s.asked
    ensures e == d && m == Add && s.probes[d].drv == r
  {
    hide Next, AddTail, Without;
  }

  /** A device that was asked for before and is pending was pending before. */
  lemma PendingOrigin(c: Config, s: State, t: Step, r: Driver, d: Device)
    requires AskedInv(s) && Can(c, s, t) && (r, d) in s.asked && (r, d) in Do(c, s, t).asked && d in Do(c, s, t).pending
    ensures d in s.pending
  {
    assert s.Listed(d);
    hide AskedInv, DoProbe, DoWork, DoPause, DoEnds, DoDevice;
    match t
    case Probe(e, m) => PendingByProbe(c, s, e, m, d);
    case Work(w) => PendingByWork(c, s, w, d);
    case Trig(_, _) =>
    case Pause(_) =>
    case Enable =>
    case Again =>
    case _ => if !t.Snap? && !t.Attach? && !t.Leave? { PendingByDevice(c, s, t, d); }
  }

  lemma PendingByProbe(c: Config, s: State, e: Device, m: Move, d: Device)
    requires Can(c, s, Probe(e, m)) && s.Listed(d) && d in DoProbe(c, s, e, m).pending
    ensures d in s.pending
  {
    hide Next;
  }

  lemma PendingByWork(c: Config, s: State, w: WorkerMove, d: Device)
    requires CanWork(s, w) && s.Listed(d) && d in DoWork(c, s, w).pending
    ensures d in s.pending
  {
  }

  lemma PendingByDevice(c: Config, s: State, t: Step, d: Device)
    requires Can(c, s, t) && (t.MatchMiss? || t.MatchDefer? || t.Release? || t.Kill? || t.Drop?)
    requires s.Listed(d) && d in DoDevice(s, t).pending
    ensures d in s.pending
  {
  }

  /** The first half of WakeInv survives a step. */
  lemma WakePending(c: Config, s: State, t: Step, r: Driver, d: Device)
    requires WakeInv(c, s) && MissInv(c, s) && AskedInv(s) && Can(c, s, t) && !Wraps(c, s, t)
    requires (r, d) in Do(c, s, t).asked && d in Do(c, s, t).pending
    ensures WillSplice(Do(c, s, t)) || Waits(c, Do(c, s, t), r, d)
  {
    hide Do, WillSplice, Waits, AskedInv;
    assert !(t.Trig? && t.k.Splice?) by { PendingNotSpliced(c, s, t, d); }
    if WillSplice(s) {
      WillSpliceStep(c, s, t);
    } else if (r, d) in s.asked {
      PendingOrigin(c, s, t, r, d);
      WaitsStep(c, s, t, r, d);
    } else {
      AskedOrigin(c, s, t, r, d);
      if Waits(c, s, r, d) { WaitsStep(c, s, t, r, d); } else { LateAdd(c, s, d); }
    }
  }

  lemma PendingNotSpliced(c: Config, s: State, t: Step, d: Device)
    requires Can(c, s, t) && d in Do(c, s, t).pending
    ensures !(t.Trig? && t.k.Splice?)
  {
    hide DoProbe, DoWork, DoPause, DoDevice, DoEnds;
  }

  /** A device that is added behind a trigger is re-checked. */
  lemma LateAdd(c: Config, s: State, d: Device)
    requires Can(c, s, Probe(d, Add)) && s.probes[d].stage.snap < s.count
    ensures WillSplice(Do(c, s, Probe(d, Add)))
  {
    hide AddTail;
    assert Committed(Do(c, s, Probe(d, Add)), d);
  }

  /** So does the second: a trigger that comes before the add moves the counter. */
  lemma WakeDeferring(c: Config, s: State, t: Step, d: Device)
    requires WakeInv(c, s) && ListInv(s) && SnapInv(s) && TodoInv(c, s) && Can(c, s, t) && !Wraps(c, s, t)
    requires d in Do(c, s, t).probes && Do(c, s, t).probes[d].stage.Deferring?
    ensures WillSplice(Do(c, s, t)) || Waits(c, Do(c, s, t), Do(c, s, t).probes[d].drv, d) ||
      Do(c, s, t).probes[d].stage.snap < Do(c, s, t).count
  {
    hide Do, WillSplice, ListInv, SnapInv, TodoInv;
    var s' := Do(c, s, t);
    DeferringOrigin(c, s, t, d);
    if t.Trig? && t.k.Splice? {
    } else if WillSplice(s) {
      WillSpliceStep(c, s, t);
    } else if t.Probe? && t.d == d {
      assert t.m.x in c.Needs(s.probes[d].drv, d) && t.m.x !in s'.bound;
    } else if Waits(c, s, s.probes[d].drv, d) {
      WaitsStep(c, s, t, s.probes[d].drv, d);
    }
  }

  /** A deferring probe was so before, or has just missed a supplier, or found everything deferred. */
  lemma DeferringOrigin(c: Config, s: State, t: Step, d: Device)
    requires ListInv(s) && SnapInv(s) && TodoInv(c, s) && Can(c, s, t)
    requires d in Do(c, s, t).probes && Do(c, s, t).probes[d].stage.Deferring?
    ensures d in s.probes && Do(c, s, t).probes[d].drv == s.probes[d].drv
    ensures t.Probe? && t.d == d ==>
      (t.m.Force? && WillSplice(s)) ||
        (t.m.Missing? && t.m.x in c.Needs(s.probes[d].drv, d) && t.m.x !in Do(c, s, t).bound)
    ensures !(t.Probe? && t.d == d) ==> s.probes[d].stage == Do(c, s, t).probes[d].stage && s.count <= Do(c, s, t).count
    ensures t.Trig? && t.k.Splice? ==> s.probes[d].stage.snap < Do(c, s, t).count
  {
    hide DoProbe, DoWork, DoPause, DoEnds, DoDevice, NoDup;
    match t
    case Probe(e, m) => if e == d { DeferringMove(c, s, d, m); }
    case Work(w) => SameAttempt(c, s, w, d);
    case Trig(_, _) =>
    case Pause(_) =>
    case Enable =>
    case Again =>
    case _ => if t.Snap? || t.Attach? || t.Leave? { SameAtEnds(c, s, t, d); }
  }

  lemma DeferringMove(c: Config, s: State, d: Device, m: Move)
    requires TodoInv(c, s) && Can(c, s, Probe(d, m)) && DoProbe(c, s, d, m).probes[d].stage.Deferring?
    ensures (m.Force? && WillSplice(s)) ||
            (m.Missing? && m.x in c.Needs(s.probes[d].drv, d) && m.x !in DoProbe(c, s, d, m).bound)
  {
    hide Del, AddTail;
  }

  lemma SameAttempt(c: Config, s: State, w: WorkerMove, d: Device)
    requires CanWork(s, w) && d in DoWork(c, s, w).probes && DoWork(c, s, w).probes[d].stage.Deferring?
    ensures d in s.probes && DoWork(c, s, w).probes[d] == s.probes[d]
  {
    hide AddByMatch;
  }

  lemma SameAtEnds(c: Config, s: State, t: Step, d: Device)
    requires Can(c, s, t) && (t.Snap? || t.Attach? || t.Leave?)
    requires d in DoEnds(s, t).probes && DoEnds(s, t).probes[d].stage.Deferring?
    ensures d in s.probes && DoEnds(s, t).probes[d] == s.probes[d]
  {
    hide AfterLeave;
  }

  /** A match callback on its way misses a supplier, or a splice has come or is coming. */
  lemma MissStep(c: Config, s: State, t: Step)
    requires MissInv(c, s) && Can(c, s, t) && !Wraps(c, s, t)
    ensures MissInv(c, Do(c, s, t))
  {
    hide Do, WillSplice, Waits;
    var s' := Do(c, s, t);
    forall miss | miss in s'.matching
      ensures miss.snap <= s'.count && (WillSplice(s') || Waits(c, s', miss.r, miss.d) || miss.snap < s'.count)
    {
      MissOrigin(c, s, t, miss);
      if t.Trig? && t.k.Splice? {
      } else if WillSplice(s) {
        WillSpliceStep(c, s, t);
      } else if Waits(c, s, miss.r, miss.d) {
        WaitsStep(c, s, t, miss.r, miss.d);
      }
    }
  }

  lemma MissOrigin(c: Config, s: State, t: Step, miss: Miss)
    requires Can(c, s, t) && miss in Do(c, s, t).matching
    ensures s.count <= Do(c, s, t).count &&
      (t.Trig? && t.k.Splice? ==> s.count < Do(c, s, t).count && miss in s.matching)
    ensures miss in s.matching || (miss.snap == s.count && Waits(c, s, miss.r, miss.d))
  {
    hide DoProbe, DoWork, DoPause, DoEnds, DoDevice;
    match t
    case Work(w) => MissesShrink(c, s, w);
    case Probe(_, _) =>
    case Trig(_, _) =>
    case Pause(_) =>
    case Enable =>
    case Again =>
    case _ => if !t.Snap? && !t.Attach? && !t.Leave? { MissFrom(c, s, t, miss); }
  }

  lemma MissesShrink(c: Config, s: State, w: WorkerMove)
    requires CanWork(s, w)
    ensures DoWork(c, s, w).matching <= s.matching
  {
    hide AddTail;
  }

  lemma MissFrom(c: Config, s: State, t: Step, miss: Miss)
    requires Can(c, s, t) && (t.MatchMiss? || t.MatchDefer? || t.Release? || t.Kill? || t.Drop?)
    requires miss in DoDevice(s, t).matching
    ensures miss in s.matching || (miss.snap == s.count && Waits(c, s, miss.r, miss.d))
  {
    hide AddTail, Without;
    if t.MatchMiss? && miss !in s.matching { assert t.x in c.Needs(miss.r, miss.d) && t.x !in s.bound; }
  }

  // ---------------------------------------------------------------- nothing is forgotten

  /** driver_deferred_probe_del takes the askers with the device. */
  lemma AskedDel(s: State, d: Device)
    requires AskedInv(s)
    ensures AskedInv(Del(s, d))
  {
    hide Without;
    var s' := Del(s, d);
    forall e | s'.Listed(e) && e !in s'.late ensures exists r :: (r, e) in s'.asked {
      var r :| (r, e) in s.asked;
      assert (r, e) in s'.asked;
    }
  }

  /** driver_deferred_probe_add for a deferral that counts. */
  lemma AskedAdd(s: State, r: Driver, d: Device)
    requires AskedInv(s)
    ensures AskedInv(AddTail(s, d).(late := s.late - {d}, asked := s.asked + {(r, d)}))
  {
    var s' := AddTail(s, d).(late := s.late - {d}, asked := s.asked + {(r, d)});
    forall e | s'.Listed(e) && e !in s'.late ensures exists q :: (q, e) in s'.asked {
      if e == d { assert (r, d) in s'.asked; }
      else { var q :| (q, e) in s.asked; assert (q, e) in s'.asked; }
    }
  }

  lemma AskedFrame(s: State, s': State)
    requires AskedInv(s) && (forall d :: s'.Listed(d) <==> s.Listed(d)) && s'.late == s.late && s'.asked == s.asked
    ensures AskedInv(s')
  {
  }

  lemma AskedProbe(c: Config, s: State, d: Device, m: Move)
    requires AskedInv(s) && Can(c, s, Probe(d, m))
    ensures AskedInv(DoProbe(c, s, d, m))
  {
    hide Next, CanMove, AskedInv, Del, AddTail;
    match m
    case Unlist => AskedDel(s, d); AskedFrame(Del(s, d), DoProbe(c, s, d, m));
    case Add =>
      AskedAdd(s, s.probes[d].drv, d);
      AskedFrame(AddTail(s, d).(late := s.late - {d}, asked := s.asked + {(s.probes[d].drv, d)}), DoProbe(c, s, d, m));
    case _ => AskedFrame(s, DoProbe(c, s, d, m));
  }

  lemma AskedWork(c: Config, s: State, w: WorkerMove)
    requires AskedInv(s) && ListInv(s) && CanWork(s, w)
    ensures AskedInv(DoWork(c, s, w))
  {
    hide AskedInv, AddByMatch;
    if w.Pop? { AskedPop(c, s); }
    else if w.MatchCut? { AskedByMatch(s, w.cut); AskedFrame(AddByMatch(s, w.cut), DoWork(c, s, w)); }
    else { AskedFrame(s, DoWork(c, s, w)); }
  }

  lemma AskedPop(c: Config, s: State)
    requires AskedInv(s) && ListInv(s) && CanWork(s, Pop)
    ensures AskedInv(DoWork(c, s, Pop))
  {
    PopPlaces(s.pending, s.active);
    var s' := DoWork(c, s, Pop);
    forall e | s'.Listed(e) && e !in s'.late ensures exists r :: (r, e) in s'.asked {
      var r :| (r, e) in s.asked;
      assert (r, e) in s'.asked;
    }
  }

  lemma AskedDevice(c: Config, s: State, t: Step)
    requires AskedInv(s) && Can(c, s, t) && (t.MatchMiss? || t.MatchDefer? || t.Release? || t.Kill? || t.Drop?)
    ensures AskedInv(DoDevice(s, t))
  {
    hide AskedInv, Del, AddByMatch;
    if t.MatchDefer? { AskedByMatch(s, t.miss); }
    else if t.Drop? { AskedDel(s, t.d); }
    else { AskedFrame(s, DoDevice(s, t)); }
  }

  lemma AskedByMatch(s: State, miss: Miss)
    requires AskedInv(s)
    ensures AskedInv(AddByMatch(s, miss))
  {
    var s' := AddByMatch(s, miss);
    if miss.snap == s.count {
      AskedAdd(s, miss.r, miss.d);
      AskedFrame(AddTail(s, miss.d).(late := s.late - {miss.d}, asked := s.asked + {(miss.r, miss.d)}), s');
    } else {
      forall e | s'.Listed(e) && e !in s'.late ensures exists r :: (r, e) in s'.asked {
        var r :| (r, e) in s.asked;
      }
    }
  }

  lemma AskedStep(c: Config, s: State, t: Step)
    requires AskedInv(s) && ListInv(s) && Can(c, s, t)
    ensures AskedInv(Do(c, s, t))
  {
    hide ListInv, AskedInv, DoProbe, DoWork, DoPause, DoDevice, DoEnds;
    match t
    case Probe(d, m) => AskedProbe(c, s, d, m);
    case Work(w) => AskedWork(c, s, w);
    case Trig(_, _) => AskedFrame(s, Do(c, s, t));
    case Pause(_) => AskedFrame(s, Do(c, s, t));
    case Enable => AskedFrame(s, Do(c, s, t));
    case Again => AskedFrame(s, Do(c, s, t));
    case Snap(_, _) => AskedFrame(s, Do(c, s, t));
    case Attach(_, _) => AskedFrame(s, Do(c, s, t));
    case Leave(_) => AskedFrame(s, Do(c, s, t));
    case _ => AskedDevice(c, s, t);
  }

  lemma RetryProbe(c: Config, s: State, d: Device, m: Move)
    requires RetryInv(c, s) && Can(c, s, Probe(d, m))
    ensures RetryInv(c, DoProbe(c, s, d, m))
  {
    hide DoProbe, CanMove;
  }

  lemma RetryWork(c: Config, s: State, w: WorkerMove)
    requires RetryInv(c, s) && CanWork(s, w)
    ensures RetryInv(c, DoWork(c, s, w))
  {
    hide AddByMatch;
  }

  lemma RetryEnds(c: Config, s: State, t: Step)
    requires RetryInv(c, s) && Can(c, s, t) && (t.Snap? || t.Attach? || t.Leave?)
    ensures RetryInv(c, DoEnds(s, t))
  {
    hide AfterLeave;
  }

  lemma RetryStep(c: Config, s: State, t: Step)
    requires RetryInv(c, s) && Can(c, s, t)
    ensures RetryInv(c, Do(c, s, t))
  {
    hide DoProbe, DoWork, DoTrig, DoPause, DoDevice, DoEnds;
    match t
    case Probe(d, m) => RetryProbe(c, s, d, m);
    case Work(w) => RetryWork(c, s, w);
    case _ => if t.Snap? || t.Attach? || t.Leave? { RetryEnds(c, s, t); }
  }

  /** What an owed answer depends on. */
  lemma PairFrame(c: Config, s: State, s': State, r: Driver, d: Device)
    requires PairOk(c, s, r, d) && s.Listed(d) == s'.Listed(d) && s'.worker == s.worker
    requires d in s'.bound ==> d in s.bound
    requires d in s'.gone ==> d in s.gone
    requires d in s.probes <==> d in s'.probes
    requires d in s.probes ==> s'.probes[d] == s.probes[d]
    ensures PairOk(c, s', r, d)
  {
  }

  /** The steps of a probe that change no list and settle nothing. */
  lemma PairQuiet(c: Config, s: State, d: Device, m: Move, r: Driver)
    requires PairOk(c, s, r, d) && Can(c, s, Probe(d, m))
    requires !m.Unlist? && !m.Add? && !m.Bind? && !m.Fail? && !m.Abort?
    ensures PairOk(c, DoProbe(c, s, d, m), r, d)
  {
    hide Del, AddTail, Except, Config.DriversOf, Config.Needs;
  }

  lemma PairFails(c: Config, s: State, d: Device, m: Move, r: Driver)
    requires PairOk(c, s, r, d) && Can(c, s, Probe(d, m)) && (r, d) in DoProbe(c, s, d, m).owed && (m.Fail? || m.Abort?)
    ensures PairOk(c, DoProbe(c, s, d, m), r, d)
  {
    hide Del, AddTail, Config.DriversOf, Config.Needs;
  }

  lemma PairOwn(c: Config, s: State, d: Device, m: Move, r: Driver)
    requires PairOk(c, s, r, d) && ListInv(s) && Can(c, s, Probe(d, m)) && (r, d) in DoProbe(c, s, d, m).owed
    ensures PairOk(c, DoProbe(c, s, d, m), r, d)
  {
    if m.Add? {
      PairAdd(c, s, d, r);
    } else if m.Fail? || m.Abort? {
      PairFails(c, s, d, m, r);
    } else {
      hide NoDup, Del, AddTail, Config.DriversOf;
      assert !m.Unlist? && !m.Bind?;
      PairQuiet(c, s, d, m, r);
    }
  }

  lemma PairAdd(c: Config, s: State, d: Device, r: Driver)
    requires ListInv(s) && Can(c, s, Probe(d, Add)) && r in c.DriversOf(d)
    ensures PairOk(c, DoProbe(c, s, d, Add), r, d)
  {
    hide NoDup, Config.DriversOf;
    assert DoProbe(c, s, d, Add).Listed(d);
  }

  /** A probe leaves the other devices alone. */
  lemma PairOther(c: Config, s: State, d: Device, m: Move, r: Driver, e: Device)
    requires PairOk(c, s, r, e) && Can(c, s, Probe(d, m)) && e != d
    ensures PairOk(c, DoProbe(c, s, d, m), r, e)
  {
    hide Next, PairOk;
    PairFrame(c, s, DoProbe(c, s, d, m), r, e);
  }

  lemma OwedOrigin(c: Config, s: State, d: Device, m: Move, r: Driver, e: Device)
    requires Can(c, s, Probe(d, m)) && (r, e) in DoProbe(c, s, d, m).owed
    ensures (r, e) in s.owed || (m.Add? && e == d && r == s.probes[d].drv)
  {
    hide Next, Del, AddTail;
  }

  lemma OwedProbe(c: Config, s: State, d: Device, m: Move)
    requires OwedInv(c, s) && RetryInv(c, s) && ListInv(s) && Can(c, s, Probe(d, m))
    ensures OwedInv(c, DoProbe(c, s, d, m))
  {
    hide ListInv, DoProbe, PairOk;
    var s' := DoProbe(c, s, d, m);
    forall r, e | (r, e) in s'.owed ensures PairOk(c, s', r, e) {
      OwedOrigin(c, s, d, m, r, e);
      if e != d { PairOther(c, s, d, m, r, e); }
      else if (r, e) in s.owed { PairOwn(c, s, d, m, r); }
      else { PairAdd(c, s, d, r); }
    }
  }

  lemma PairWork(c: Config, s: State, w: WorkerMove, r: Driver, e: Device)
    requires PairOk(c, s, r, e) && RetryInv(c, s) && CanWork(s, w)
    ensures PairOk(c, DoWork(c, s, w), r, e)
  {
    hide Except, Config.DriversOf;
  }

  lemma OwedWork(c: Config, s: State, w: WorkerMove)
    requires OwedInv(c, s) && RetryInv(c, s) && CanWork(s, w)
    ensures OwedInv(c, DoWork(c, s, w))
  {
    hide DoWork, PairOk, RetryInv;
    var s' := DoWork(c, s, w);
    forall r, e | (r, e) in s'.owed ensures PairOk(c, s', r, e) {
      PairWork(c, s, w, r, e);
    }
  }

  lemma PairDevice(c: Config, s: State, t: Step, r: Driver, e: Device)
    requires Can(c, s, t) && (t.MatchMiss? || t.MatchDefer? || t.Release? || t.Kill? || t.Drop?)
    requires PairOk(c, s, r, e) && (r, e) in s.owed && (r, e) in DoDevice(s, t).owed
    ensures PairOk(c, DoDevice(s, t), r, e)
  {
    hide Config.DriversOf, Config.Needs;
    if t.MatchDefer? {
      assert DoDevice(s, t).Listed(e) == (s.Listed(e) || e == t.miss.d);
    } else {
      assert DoDevice(s, t).Listed(e) == s.Listed(e);
    }
  }

  lemma OwedDevice(c: Config, s: State, t: Step)
    requires OwedInv(c, s) && Can(c, s, t) && (t.MatchMiss? || t.MatchDefer? || t.Release? || t.Kill? || t.Drop?)
    ensures OwedInv(c, DoDevice(s, t))
  {
    hide Without, Del, AddByMatch, PairOk;
    var s' := DoDevice(s, t);
    assert s'.owed <= s.owed;
    forall r, e | (r, e) in s'.owed ensures PairOk(c, s', r, e) {
      PairDevice(c, s, t, r, e);
    }
  }

  lemma PairEnds(c: Config, s: State, t: Step, r: Driver, e: Device)
    requires PairOk(c, s, r, e) && Can(c, s, t) && (t.Snap? || t.Attach? || t.Leave?)
    ensures PairOk(c, DoEnds(s, t), r, e)
  {
    hide Config.DriversOf;
  }

  lemma OwedEnds(c: Config, s: State, t: Step)
    requires OwedInv(c, s) && Can(c, s, t) && (t.Snap? || t.Attach? || t.Leave?)
    ensures OwedInv(c, DoEnds(s, t))
  {
    hide DoEnds, PairOk;
    var s' := DoEnds(s, t);
    forall r, e | (r, e) in s'.owed ensures PairOk(c, s', r, e) {
      PairEnds(c, s, t, r, e);
    }
  }

  /** Triggers, blocking and enabling owe nobody an answer. */
  lemma OwedFrame(c: Config, s: State, s': State)
    requires OwedInv(c, s) && (forall d :: s.Listed(d) == s'.Listed(d)) && s'.worker == s.worker
    requires s'.owed == s.owed && s'.bound == s.bound && s'.gone == s.gone && s'.probes == s.probes
    ensures OwedInv(c, s')
  {
    hide PairOk;
    forall r, e | (r, e) in s'.owed ensures PairOk(c, s', r, e) {
      PairFrame(c, s, s', r, e);
    }
  }

  lemma OwedStep(c: Config, s: State, t: Step)
    requires OwedInv(c, s) && RetryInv(c, s) && ListInv(s) && Can(c, s, t)
    ensures OwedInv(c, Do(c, s, t))
  {
    hide ListInv, RetryInv, OwedInv, DoProbe, DoWork, DoPause, DoDevice, DoEnds;
    match t
    case Probe(d, m) => OwedProbe(c, s, d, m);
    case Work(w) => OwedWork(c, s, w);
    case Trig(site, k) => OwedFrame(c, s, Do(c, s, t));
    case Pause(_) => OwedFrame(c, s, Do(c, s, t));
    case Enable => OwedFrame(c, s, Do(c, s, t));
    case Again => OwedFrame(c, s, Do(c, s, t));
    case _ => if t.Snap? || t.Attach? || t.Leave? { OwedEnds(c, s, t); } else { OwedDevice(c, s, t); }
  }

  // ---------------------------------------------------------------- whole runs

  ghost predicate Inv(c: Config, s: State) {
    ListInv(s) && WorkerInv(s) && CountInv(s) && GateInv(s) && FlushInv(s) && AskedInv(s) && RetryInv(c, s) &&
      OwedInv(c, s)
  }

  ghost predicate FullInv(c: Config, s: State) {
    Inv(c, s) && SnapInv(s) && TodoInv(c, s) && MissInv(c, s) && WakeInv(c, s)
  }

  /** No probe of the run spans a multiple of 2^32 triggers. */
  predicate Unwrapped(c: Config, s: State, ts: seq<Step>)
    decreases |ts|
  {
    ts == [] ||
    (!Wraps(c, s, ts[0]) && (Can(c, s, ts[0]) ==> Unwrapped(c, Do(c, s, ts[0]), ts[1..])))
  }

  lemma InvStep(c: Config, s: State, t: Step)
    requires Inv(c, s) && Can(c, s, t)
    ensures Inv(c, Do(c, s, t))
  {
    hide ListInv, WorkerInv, CountInv, GateInv, FlushInv, AskedInv, RetryInv, OwedInv, Do;
    ListStep(c, s, t);
    FlushStep(c, s, t);
    WorkerStep(c, s, t);
    CountStep(c, s, t);
    GateStep(c, s, t);
    AskedStep(c, s, t);
    RetryStep(c, s, t);
    OwedStep(c, s, t);
  }

  lemma {:induction false} InvAlong(c: Config, s: State, ts: seq<Step>, s': State)
    requires Inv(c, s) && Exec(c, s, ts, s')
    ensures Inv(c, s')
    decreases |ts|
  {
    hide Inv, Do;
    if ts != [] {
      InvStep(c, s, ts[0]);
      InvAlong(c, Do(c, s, ts[0]), ts[1..], s');
    }
  }

  lemma WakeStep(c: Config, s: State, t: Step)
    requires WakeInv(c, s) && MissInv(c, s) && ListInv(s) && SnapInv(s) && TodoInv(c, s) && AskedInv(s) &&
      Can(c, s, t) && !Wraps(c, s, t)
    ensures WakeInv(c, Do(c, s, t))
  {
    hide ListInv, SnapInv, TodoInv, AskedInv, MissInv, Do, WillSplice, Waits;
    var s' := Do(c, s, t);
    forall r, d | (r, d) in s'.asked && d in s'.pending ensures WillSplice(s') || Waits(c, s', r, d) {
      WakePending(c, s, t, r, d);
    }
    forall d | d in s'.probes && s'.probes[d].stage.Deferring?
      ensures WillSplice(s') || Waits(c, s', s'.probes[d].drv, d) || s'.probes[d].stage.snap < s'.count
    {
      WakeDeferring(c, s, t, d);
    }
  }

  lemma FullStep(c: Config, s: State, t: Step)
    requires FullInv(c, s) && Can(c, s, t) && !Wraps(c, s, t)
    ensures FullInv(c, Do(c, s, t))
  {
    hide ListInv, WorkerInv, CountInv, GateInv, FlushInv, RetryInv, OwedInv, AskedInv, SnapInv, TodoInv, MissInv,
      WakeInv, Do;
    InvStep(c, s, t);
    SnapStep(c, s, t);
    TodoStep(c, s, t);
    MissStep(c, s, t);
    WakeStep(c, s, t);
  }

  lemma {:induction false} FullAlong(c: Config, s: State, ts: seq<Step>, s': State)
    requires FullInv(c, s) && Exec(c, s, ts, s') && Unwrapped(c, s, ts)
    ensures FullInv(c, s')
    decreases |ts|
  {
    hide FullInv, Do;
    if ts != [] {
      FullStep(c, s, ts[0]);
      FullAlong(c, Do(c, s, ts[0]), ts[1..], s');
    }
  }
}
