/** The promises of deferred probing, over every run, and the runs that show where they end. */
module DeferredProbeTheorems {
  import opened ProbeLists
  import opened DeferredProbe
  import opened DeferredProbeSafety

  /** Nothing is in flight: no probe, no trigger, no match, no queued or running work; deferral is
      enabled and probing is not blocked. */
  predicate Resting(s: State) {
    && s.probes == map[] && s.triggers == map[] && s.matching == {}
    && s.worker.Sleeping? && !s.queued && s.enable && !s.deferAll
  }

  /** No lost dependency: at rest nothing waits for the worker; a device that is still pending was deferred by a
      probe or by a match callback, and every driver that deferred it since it was listed really misses a supplier.
      Apart are only devices that match callbacks alone listed, each behind a splice since its miss. */
  lemma NoLostDependency(c: Config, ts: seq<Step>, s: State)
    requires Exec(c, Init(), ts, s) && Unwrapped(c, Init(), ts) && Resting(s)
    ensures s.active == []
    ensures forall d :: d in s.pending && d !in s.late ==> exists r :: (r, d) in s.asked
    ensures forall r, d :: (r, d) in s.asked ==> Waits(c, s, r, d)
  {
    FullAlong(c, Init(), ts, s);
  }

  /** No lost device: at rest, a device whose probe by some driver deferred, and has been answered neither by
      a later probe of that driver nor by a bind, an aborted walk or the end of the device, is pending. */
  lemma NoLostDevice(c: Config, ts: seq<Step>, s: State)
    requires Exec(c, Init(), ts, s) && Resting(s)
    ensures forall r, d :: (r, d) in s.owed ==> d in s.pending && d !in s.bound && d !in s.gone
  {
    InvAlong(c, Init(), ts, s);
    assert s.active == [];
  }

  /** The branch that fails: a match callback adds its device although the counter has moved since its miss. */
  predicate AddsLate(s: State, t: Step) {
    || (t.MatchDefer? && t.miss.snap != s.count)
    || (t.Work? && t.w.MatchCut? && t.w.cut.snap != s.count)
  }

  /** No match callback of the run adds late. */
  predicate Prompt(c: Config, s: State, ts: seq<Step>)
    decreases |ts|
  {
    ts == [] || (!AddsLate(s, ts[0]) && (Can(c, s, ts[0]) ==> Prompt(c, Do(c, s, ts[0]), ts[1..])))
  }

  lemma PromptProbe(c: Config, s: State, d: Device, m: Move)
    requires Can(c, s, Probe(d, m)) && s.late == {}
    ensures DoProbe(c, s, d, m).late == {}
  {
    hide Next, CanMove, AddTail, Without;
  }

  lemma PromptStep(c: Config, s: State, t: Step)
    requires Can(c, s, t) && s.late == {} && !AddsLate(s, t)
    ensures Do(c, s, t).late == {}
  {
    hide DoProbe, DoTrig, DoPause, DoEnds, Without, AddTail;
    if t.Probe? { PromptProbe(c, s, t.d, t.m); }
  }

  /** Only late match callbacks are exempt: a run without one leaves no exempt device. */
  lemma {:induction false} ExemptOnlyLate(c: Config, s: State, ts: seq<Step>, s': State)
    requires Exec(c, s, ts, s') && s.late == {} && Prompt(c, s, ts)
    ensures s'.late == {}
    decreases |ts|
  {
    hide Do, AddsLate;
    if ts != [] {
      PromptStep(c, s, ts[0]);
      ExemptOnlyLate(c, Do(c, s, ts[0]), ts[1..], s');
    }
  }

  /** So in a run without one every device that rests on the pending list misses a supplier, however it got there. */
  lemma EveryPendingWaits(c: Config, ts: seq<Step>, s: State)
    requires Exec(c, Init(), ts, s) && Unwrapped(c, Init(), ts) && Prompt(c, Init(), ts) && Resting(s)
    ensures forall d :: d in s.pending ==> exists r :: Waits(c, s, r, d)
  {
    hide Exec, Unwrapped, Prompt, Waits, Resting;
    NoLostDependency(c, ts, s);
    ExemptOnlyLate(c, Init(), ts, s);
  }

  /** Each device is on at most one list, once; a bound device whose driver_bound has deleted it
      is on neither; and a nonempty active list has someone coming for it. */
  lemma ListsAndWorker(c: Config, ts: seq<Step>, s: State)
    requires Exec(c, Init(), ts, s)
    ensures NoDup(s.pending + s.active)
    ensures forall d :: d in s.bound && !(d in s.probes && s.probes[d].stage.Bound?) && d !in s.byMatch ==> !s.Listed(d)
    ensures s.active != [] ==>
      !s.worker.Sleeping? || s.queued || exists site :: site in s.triggers && s.triggers[site].Spliced?
  {
    InvAlong(c, Init(), ts, s);
  }

  /** From the return of device_block_probing until device_unblock_probing begins, no callback
      entered through driver_probe_device is running and none is being bound. */
  lemma BlockedMeansQuiet(c: Config, ts: seq<Step>, s: State)
    requires Exec(c, Init(), ts, s) && s.gate.Closed?
    ensures forall d :: d in s.probes && (s.probes[d].stage.Probing? || s.probes[d].stage.Bound?) ==>
      s.probes[d].entry.Manual?
  {
    InvAlong(c, Init(), ts, s);
  }

  /** How often the work has come to its end. */
  function Sleeps(ts: seq<Step>): nat
    decreases |ts|
  {
    if ts == [] then 0 else Sleeps(ts[..|ts| - 1]) + if ts[|ts| - 1] == Work(Sleep) then 1 else 0
  }

  /** The runs that flush_work still waits for. */
  ghost predicate Awaits(s: State, n: int) {
    s.gate.Flushing? && Pm !in s.triggers && s.gate.left == if n > 0 then n else 0
  }

  lemma AwaitsStep(c: Config, s: State, t: Step, n: int)
    requires Awaits(s, n) && Can(c, s, t) && t != Pause(Flushed)
    ensures Awaits(Do(c, s, t), if t == Work(Sleep) then n - 1 else n)
  {
    hide DoProbe, DoWork, DoEnds, DoDevice, CanMove;
    if t.Probe? { AwaitsProbe(c, s, t.d, t.m, n); }
    if t.Work? { AwaitsWork(c, s, t.w, n); }
  }

  lemma AwaitsProbe(c: Config, s: State, d: Device, m: Move, n: int)
    requires Awaits(s, n) && Can(c, s, Probe(d, m))
    ensures Awaits(DoProbe(c, s, d, m), n)
  {
    hide Next, CanMove, Del, AddTail;
  }

  lemma AwaitsWork(c: Config, s: State, w: WorkerMove, n: int)
    requires Awaits(s, n) && CanWork(s, w)
    ensures Awaits(DoWork(c, s, w), if w.Sleep? then n - 1 else n)
  {
    hide AddByMatch;
  }

  lemma {:induction false} ExecLast(c: Config, s: State, ts: seq<Step>, t: Step, s': State) returns (u: State)
    requires Exec(c, s, ts + [t], s')
    ensures Exec(c, s, ts, u) && Can(c, u, t) && s' == Do(c, u, t)
    decreases |ts|
  {
    hide Do, Can;
    var all := ts + [t];
    if ts == [] {
      assert all[0] == t && all[1..] == [];
      u := s;
    } else {
      assert all[0] == ts[0] && all[1..] == ts[1..] + [t];
      u := ExecLast(c, Do(c, s, ts[0]), ts[1..], t, s');
    }
  }

  lemma {:induction false} AwaitsAlong(c: Config, s: State, us: seq<Step>, s': State, n: int)
    requires Awaits(s, n) && Exec(c, s, us, s') && Pause(Flushed) !in us
    ensures Awaits(s', n - Sleeps(us))
    decreases |us|
  {
    hide Do, Can, Awaits;
    if us != [] {
      var us', t := us[..|us| - 1], us[|us| - 1];
      assert us == us' + [t];
      var u := ExecLast(c, s, us', t, s');
      AwaitsAlong(c, s, us', u, n);
      AwaitsStep(c, u, t, n - Sleeps(us'));
    }
  }

  /** device_block_probing waits for the work: from the moment it sets defer_all_probes, flush_work returns exactly when
      the work has come to its end once for the run that was going on then and once for the run that was queued. */
  lemma FlushReturnsExactly(c: Config, s: State, us: seq<Step>, s': State)
    requires Can(c, s, Pause(Block)) && Exec(c, Do(c, s, Pause(Block)), us, s') && Pause(Flushed) !in us
    ensures Can(c, s', Pause(Flushed)) <==>
      Sleeps(us) >= (if s.worker.Sleeping? then 0 else 1) + (if s.queued then 1 else 0)
  {
    var n := (if s.worker.Sleeping? then 0 else 1) + (if s.queued then 1 else 0);
    AwaitsAlong(c, Do(c, s, Pause(Block)), us, s', n);
  }

  /** So whatever was queued or going on when probing was blocked is over when device_block_probing goes on: the worker
      has been at its end since. */
  lemma BlockWaitsForWork(c: Config, s: State, us: seq<Step>, s': State)
    requires Can(c, s, Pause(Block)) && Exec(c, Do(c, s, Pause(Block)), us, s') && Pause(Flushed) !in us
    requires Can(c, s', Pause(Flushed)) && (s.queued || !s.worker.Sleeping?)
    ensures Work(Sleep) in us
  {
    FlushReturnsExactly(c, s, us, s');
    if Work(Sleep) !in us { NoSleeps(us); }
  }

  lemma {:induction false} NoSleeps(us: seq<Step>)
    requires Work(Sleep) !in us
    ensures Sleeps(us) == 0
    decreases |us|
  {
    if us != [] {
      assert us[|us| - 1] in us;
      NoSleeps(us[..|us| - 1]);
    }
  }
}
