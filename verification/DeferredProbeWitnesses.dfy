/** Runs that show the exemptions of the deferred-probe theorems cannot be dropped. */
module DeferredProbeWitnesses {
  import opened ProbeLists
  import opened DeferredProbe
  import opened DeferredProbeSafety
  import opened DeferredProbeTheorems
  import DeferredProbeLeast
  import DeferredProbeOutcome
  import DeferredProbeTurns

  lemma {:induction false} ExecConcat(c: Config, s: State, ts: seq<Step>, s1: State, us: seq<Step>, s2: State)
    requires Exec(c, s, ts, s1) && Exec(c, s1, us, s2)
    ensures Exec(c, s, ts + us, s2)
    decreases |ts|
  {
    hide Do;
    if ts == [] {
      assert ts + us == us;
    } else {
      assert (ts + us)[0] == ts[0] && (ts + us)[1..] == ts[1..] + us;
      ExecConcat(c, Do(c, s, ts[0]), ts[1..], s1, us, s2);
    }
  }

  lemma ExecOne(c: Config, s: State, t: Step)
    requires Can(c, s, t)
    ensures Exec(c, s, [t], Do(c, s, t))
  {
    assert Exec(c, Do(c, s, t), [t][1..], Do(c, s, t));
  }

  ghost predicate Reachable(c: Config, s: State) {
    exists ts :: Exec(c, Init(), ts, s)
  }

  lemma ReachInit(c: Config)
    ensures Reachable(c, Init())
  {
    assert Exec(c, Init(), [], Init());
  }

  lemma ReachStep(c: Config, s: State, t: Step)
    requires Reachable(c, s) && Can(c, s, t)
    ensures Reachable(c, Do(c, s, t))
  {
    var ts :| Exec(c, Init(), ts, s);
    ExecOne(c, s, t);
    ExecConcat(c, Init(), ts, s, [t], Do(c, s, t));
  }

  /** Driver 0 matches both devices; device 1 needs device 0, device 0 needs nothing. */
  function Pair(): Config {
    Config(map[0 := {0}, 1 := {0}], map[(0, 1) := {0}])
  }

  /** A resting state after `n` triggers with the given pending list, what put its devices there (late match
      deferrals, or probes), and bound set. */
  function Rest(n: nat, pending: seq<Device>, byMatch: set<Device>, asked: set<(Driver, Device)>,
      bound: set<Device>): State {
    State(pending, [], {}, byMatch, byMatch, asked, asked, {}, n, 0, false, true, bound, map[], map[], false, Sleeping,
      Open)
  }

  /** Nothing is listed and the worker has nothing to do. */
  predicate Idle(s: State) {
    s.enable && s.pending == [] && s.active == [] && s.worker.Sleeping? && !s.queued && s.gate.Open?
  }

  lemma TriggerToQueue(c: Config, s: State, site: Site)
    requires Reachable(c, s) && Idle(s) && site in s.triggers && s.triggers[site].Check?
    ensures Reachable(c, s.(count := s.count + 1, triggers := s.triggers - {site}, queued := true))
  {
    hide Reachable;
    var s1 := s.(triggers := s.triggers[site := Armed]);
    assert Do(c, s, Trig(site, Test)) == s1;
    ReachStep(c, s, Trig(site, Test));
    var s2 := s.(count := s.count + 1, triggers := s.triggers[site := Spliced]);
    assert Do(c, s1, Trig(site, Splice)) == s2;
    ReachStep(c, s1, Trig(site, Splice));
    ReachStep(c, s2, Trig(site, Queue));
    assert s2.triggers - {site} == s.triggers - {site};
  }

  /** A trigger call at `site` with nothing pending, and the worker run it queues. */
  lemma TriggerRound(c: Config, s: State, site: Site)
    requires Reachable(c, s) && Idle(s) && site in s.triggers && s.triggers[site].Check?
    ensures Reachable(c, s.(count := s.count + 1, triggers := s.triggers - {site}))
  {
    hide Reachable, DoTrig, AddByMatch;
    TriggerToQueue(c, s, site);
    var s3 := s.(count := s.count + 1, triggers := s.triggers - {site}, queued := true);
    var s4 := s3.(queued := false, worker := Looping);
    assert Do(c, s3, Work(Wake)) == s4;
    ReachStep(c, s3, Work(Wake));
    ReachStep(c, s4, Work(Sleep));
  }

  lemma Started(c: Config)
    ensures Reachable(c, Rest(1, [], {}, {}, {}))
  {
    hide Reachable;
    var s := Init().(enable := true, triggers := map[Boot := Check]);
    assert Do(c, Init(), Enable) == s by { assert Init().triggers[Boot := Check] == s.triggers; }
    ReachInit(c);
    ReachStep(c, Init(), Enable);
    TriggerRound(c, s, Boot);
    assert s.triggers - {Boot} == map[];
  }

  /** driver_probe_device up to the start of the probe callback. */
  lemma EntersCallback(c: Config, s: State, d: Device, r: Driver)
    requires Reachable(c, s) && d !in s.probes && d !in s.bound && d !in s.gone && !s.deferAll && r in c.DriversOf(d)
    ensures Reachable(c, s.(probing := s.probing + 1,
                            probes := s.probes[d := Attempt(r, Direct, Probing(s.count, c.Needs(r, d)))]))
  {
    hide Reachable, Del, AddTail;
    var s1 := s.(probes := s.probes[d := Attempt(r, Direct, Snapped(s.count))]);
    assert Do(c, s, Snap(d, r)) == s1;
    ReachStep(c, s, Snap(d, r));
    var s2 := s.(probing := s.probing + 1, probes := s.probes[d := Attempt(r, Direct, Entered(s.count))]);
    assert Do(c, s1, Probe(d, Raise)) == s2 by {
      assert s1.probes[d := Attempt(r, Direct, Entered(s.count))] == s2.probes;
    }
    ReachStep(c, s1, Probe(d, Raise));
    ReachStep(c, s2, Probe(d, Pass));
    assert Do(c, s2, Probe(d, Pass)).probes == s.probes[d := Attempt(r, Direct, Probing(s.count, c.Needs(r, d)))];
  }

  /** Device 0, bound from start to finish by driver 0, whatever another thread is in the middle of. */
  lemma BindZero(s: State)
    requires Reachable(Pair(), s) && Idle(s) && !s.deferAll
    requires s.byMatch == {} && s.late == {} && s.asked == {} && s.owed == {} && s.gone == {}
    requires 0 !in s.probes && 0 !in s.bound && At(0) !in s.triggers
    ensures Reachable(Pair(), s.(count := s.count + 1, bound := s.bound + {0}))
  {
    hide Reachable, AddTail;
    var c := Pair();
    EntersCallback(c, s, 0, 0);
    var s3 := s.(probing := s.probing + 1, probes := s.probes[0 := Attempt(0, Direct, Probing(s.count, {}))]);
    ReachStep(c, s3, Probe(0, Bind));
    var s4 := s.(probing := s.probing + 1, probes := s.probes[0 := Attempt(0, Direct, Bound)], bound := s.bound + {0});
    assert Do(c, s3, Probe(0, Bind)) == s4 by { assert s3.probes[0 := Attempt(0, Direct, Bound)] == s4.probes; }
    ZeroUnlists(s, s4);
  }

  lemma ZeroUnlists(s: State, s4: State)
    requires Reachable(Pair(), s4) && Idle(s)
    requires s.byMatch == {} && s.late == {} && s.asked == {} && 0 !in s.probes && At(0) !in s.triggers
    requires s4 == s.(probing := s.probing + 1, probes := s.probes[0 := Attempt(0, Direct, Bound)],
      bound := s.bound + {0})
    ensures Reachable(Pair(), s.(count := s.count + 1, bound := s.bound + {0}))
  {
    hide Reachable, AddTail;
    ReachStep(Pair(), s4, Probe(0, Unlist));
    var s5 := s4.(probes := s.probes[0 := Attempt(0, Direct, Leaving(true))], triggers := s.triggers[At(0) := Check]);
    assert Do(Pair(), s4, Probe(0, Unlist)) == s5 by {
      assert Except({}, 0) == {} && s4.probes[0 := Attempt(0, Direct, Leaving(true))] == s5.probes;
    }
    TriggerRound(Pair(), s5, At(0));
    ZeroLeaves(s, s5.(count := s.count + 1, triggers := s5.triggers - {At(0)}));
  }

  lemma ZeroLeaves(s: State, s6: State)
    requires Reachable(Pair(), s6) && s.worker.Sleeping? && 0 !in s.probes && At(0) !in s.triggers
    requires s6 == s.(count := s.count + 1, probing := s.probing + 1, bound := s.bound + {0}, triggers := s6.triggers,
                      probes := s.probes[0 := Attempt(0, Direct, Leaving(true))])
    requires s6.triggers == s.triggers[At(0) := Check] - {At(0)}
    ensures Reachable(Pair(), s.(count := s.count + 1, bound := s.bound + {0}))
  {
    hide Reachable;
    ReachStep(Pair(), s6, Leave(0));
    assert s6.probes - {0} == s.probes && s6.triggers == s.triggers;
  }

  /** Match-time deferral adds without looking at the counter again: device 1 misses device 0, device
      0 binds and triggers, and device 1 then rests on the pending list with every supplier bound. */
  lemma MatchDeferralStrands()
    ensures var s := Rest(2, [1], {1}, {}, {0}); Reachable(Pair(), s) && Resting(s) && !Waits(Pair(), s, 0, 1)
  {
    hide Reachable;
    var c := Pair();
    Started(c);
    var s := Rest(1, [], {}, {}, {});
    ReachStep(c, s, MatchMiss(1, 0, 0));
    var s1 := s.(matching := {Miss(0, 1, 1)});
    assert Do(c, s, MatchMiss(1, 0, 0)) == s1;
    BindZero(s1);
    var s2 := s1.(count := 2, bound := {0});
    assert s1.bound + {0} == {0};
    ReachStep(c, s2, MatchDefer(Miss(0, 1, 1)));
    assert Do(c, s2, MatchDefer(Miss(0, 1, 1))) == Rest(2, [1], {1}, {}, {0});
  }

  /** A probe through device_driver_attach is not counted, so device_block_probing returns while its
      callback is running. */
  lemma ManualAttachOutlivesBlock()
    ensures exists s :: Reachable(Pair(), s) && s.gate.Closed? && 0 in s.probes && s.probes[0].stage.Probing?
  {
    hide Reachable;
    var c := Pair();
    Started(c);
    var s := Rest(1, [], {}, {}, {});
    ReachStep(c, s, Attach(0, 0));
    var s1 := s.(probes := map[0 := Attempt(0, Manual, Entered(1))]);
    assert Do(c, s, Attach(0, 0)) == s1;
    ReachStep(c, s1, Probe(0, Pass));
    var s2 := s.(probes := map[0 := Attempt(0, Manual, Probing(1, {}))]);
    assert Do(c, s1, Probe(0, Pass)) == s2;
    BlockReturns(s2);
  }

  lemma BlockReturns(s: State)
    requires Reachable(Pair(), s) && s.gate.Open? && Pm !in s.triggers && s.probing == 0 && Runs(s) == 0
    ensures Reachable(Pair(), s.(gate := Closed, deferAll := true))
  {
    hide Reachable;
    ReachStep(Pair(), s, Pause(Block));
    ReachStep(Pair(), s.(gate := Flushing(0), deferAll := true), Pause(Flushed));
    ReachStep(Pair(), s.(gate := Draining, deferAll := true), Pause(Drained));
  }

  lemma {:induction false} ManyRounds(c: Config, s: State, n: nat)
    requires Reachable(c, s) && Idle(s) && Boot !in s.triggers
    ensures Reachable(c, s.(count := s.count + n))
  {
    hide Reachable;
    if n > 0 {
      ManyRounds(c, s, n - 1);
      var s1 := s.(count := s.count + n - 1);
      ReachStep(c, s1, Again);
      TriggerRound(c, Do(c, s1, Again), Boot);
      assert s.triggers[Boot := Check] - {Boot} == s.triggers;
    }
  }

  /** The counter is 32 bits wide: after 2^32 triggers inside one probe the re-check sees no change,
      and device 1 rests on the pending list with every supplier bound. */
  lemma WrappedCounterStrands()
    ensures var s := Rest(COUNTER_SPAN + 1, [1], {}, {(0, 1)}, {0});
      Reachable(Pair(), s) && Resting(s) && !Waits(Pair(), s, 0, 1)
  {
    hide Reachable;
    Started(Pair());
    var s := Rest(1, [], {}, {}, {});
    EntersCallback(Pair(), s, 1, 0);
    MissesZero(s.(probing := 1, probes := s.probes[1 := Attempt(0, Direct, Probing(1, {0}))]));
    var s2 := s.(probing := 1, probes := map[1 := Attempt(0, Direct, Deferring(1, false))]);
    BindZero(s2);
    var s3 := s2.(count := 2, bound := {0});
    assert s2.bound + {0} == {0};
    ManyRounds(Pair(), s3, COUNTER_SPAN - 1);
    AddUnnoticed(s3.(count := COUNTER_SPAN + 1));
  }

  lemma MissesZero(s: State)
    requires Reachable(Pair(), s) && s.probes == map[1 := Attempt(0, Direct, Probing(1, {0}))] && 0 !in s.bound
    ensures Reachable(Pair(), s.(probes := map[1 := Attempt(0, Direct, Deferring(1, false))]))
  {
    hide Reachable, Del, AddTail;
    ReachStep(Pair(), s, Probe(1, Missing(0, false)));
    assert s.probes[1 := Attempt(0, Direct, Deferring(1, false))] == map[1 := Attempt(0, Direct, Deferring(1, false))];
  }

  lemma AddUnnoticed(s: State)
    requires Reachable(Pair(), s)
    requires s == Rest(COUNTER_SPAN + 1, [], {}, {}, {0}).(probing := 1,
      probes := map[1 := Attempt(0, Direct, Deferring(1, false))])
    ensures Reachable(Pair(), Rest(COUNTER_SPAN + 1, [1], {}, {(0, 1)}, {0}))
  {
    hide Reachable;
    ReachStep(Pair(), s, Probe(1, Add));
    var s1 := s.(pending := [1], asked := {(0, 1)}, owed := {(0, 1)},
      probes := map[1 := Attempt(0, Direct, Added(1, false))]);
    assert Do(Pair(), s, Probe(1, Add)) == s1;
    RecheckUnnoticed(s1);
  }

  lemma RecheckUnnoticed(s: State)
    requires Reachable(Pair(), s)
    requires s == Rest(COUNTER_SPAN + 1, [1], {}, {(0, 1)}, {0}).(probing := 1,
      probes := map[1 := Attempt(0, Direct, Added(1, false))])
    ensures Reachable(Pair(), Rest(COUNTER_SPAN + 1, [1], {}, {(0, 1)}, {0}))
  {
    hide Reachable, Del, AddTail;
    ReachStep(Pair(), s, Probe(1, Recheck));
    var s2 := s.(probes := map[1 := Attempt(0, Direct, Leaving(false))]);
    assert Do(Pair(), s, Probe(1, Recheck)) == s2 by {
      assert s.probes[1 := Attempt(0, Direct, Leaving(false))] == s2.probes;
    }
    ReachStep(Pair(), s2, Leave(1));
    assert s2.probes - {1} == map[];
  }

  /** Drivers 0 and 1 match device 0; driver 0 needs device 1, driver 1 needs nothing. */
  function Rivals(): Config {
    Config(map[0 := {0, 1}], map[(0, 0) := {1}])
  }

  /** A device with two drivers need not stir: driver 0 alone is probing device 0 and will defer it, nothing will ever
      splice, and driver 1, which needs nothing, is never tried. */
  lemma ReadyDriverNotTried()
    ensures exists s ::
      && Reachable(Rivals(), s) && s.enable && !s.deferAll
      && DeferredProbeLeast.OrderlyInv(Rivals(), s) && DeferredProbeTurns.WalkWhole(Rivals(), s)
      && DeferredProbeLeast.InPlay(Rivals(), s, 0) && Rivals().Needs(1, 0) <= s.bound
      && !DeferredProbeOutcome.Stirs(Rivals(), s)
  {
    var c, r := Rivals(), Rest(1, [], {}, {}, {});
    Started(c);
    EntersCallback(c, r, 0, 0);
    var s := r.(probing := r.probing + 1, probes := r.probes[0 := Attempt(0, Direct, Probing(r.count, c.Needs(0, 0)))]);
    assert s.probes == map[0 := Attempt(0, Direct, Probing(s.count, {1}))];
    hide Reachable, DeferredProbeLeast.InPlay, DeferredProbeTurns.WalkWhole, DeferredProbeOutcome.Stirs;
    NoStir(s);
  }

  lemma NoStir(s: State)
    requires s.enable && !s.deferAll && s.pending == [] && s.active == [] && s.worker.Sleeping? && s.bound == {}
    requires s.triggers == map[] && s.probes == map[0 := Attempt(0, Direct, Probing(s.count, {1}))]
    ensures DeferredProbeLeast.InPlay(Rivals(), s, 0) && !DeferredProbeOutcome.Stirs(Rivals(), s)
    ensures Rivals().Needs(1, 0) <= s.bound && DeferredProbeTurns.WalkWhole(Rivals(), s)
  {
    var c := Rivals();
    assert InHand(s, 0, 0) && 0 in c.DriversOf(0) && 1 in c.DriversOf(0);
    DeferredProbeLeast.InPlayKnown(c, s, 0);
    assert 1 in c.Needs(0, 0) && c.Needs(1, 0) == {};
    assert !DeferredProbeTurns.SpliceAhead(s);
    assert !DeferredProbeTurns.Turn(c, s) by {
      forall q, d | DeferredProbeTurns.Covered(s, q, d) ensures !(c.Needs(q, d) <= s.bound) {
        assert q == 0 && d == 0;
      }
    }
  }
}
