/**
 What gets bound does not depend on the schedule, however many drivers a device has. Exactly when it is the least closed
 set can be told beforehand: when something will splice the pending list, or some driver whose turn is still to come
 finds its suppliers bound already, or nothing can be bound at all. Otherwise nothing is bound.
 */
module DeferredProbeOutcome {
  import opened ProbeLists
  import opened DeferredProbe
  import opened DeferredProbeSafety
  import opened DeferredProbeTheorems
  import opened DeferredProbeSettles
  import opened DeferredProbeLeast
  import opened DeferredProbeTurns

  // ---------------------------------------------------------------- every schedule

  /** At rest whoever's turn is still to come, on a device that is not bound, has deferred it and misses a supplier. */
  lemma RestingWaits(c: Config, s: State, r: Driver, d: Device)
    requires FullInv(c, s) && Resting(s) && Coming(c, s, r, d)
    ensures Waits(c, s, r, d)
  {
    AtRest(c, s);
    hide ListInv, WorkerInv, CountInv, GateInv, FlushInv, AskedInv, RetryInv, OwedInv, SnapInv, TodoInv, MissInv,
      WakeInv, Waits;
    if !Covered(s, r, d) {
      var x :| x in c.Needs(r, d) && Held(s, x, d);
      assert x !in s.bound;
      MissesOne(c, s, r, d, x);
    }
  }

  lemma MissesOne(c: Config, s: State, r: Driver, d: Device, x: Device)
    requires x in c.Needs(r, d) && x !in s.bound
    ensures Waits(c, s, r, d)
  {
  }

  lemma RestIsStill(s: State)
    requires Resting(s)
    ensures !SpliceAhead(s)
  {
  }

  lemma OutcomeClosed(c: Config, s: State, us: seq<Step>, s': State)
    requires FullInv(c, s) && OrderlyInv(c, s) && WalkWhole(c, s) && !s.deferAll && FullInv(c, s') && Resting(s')
    requires Exec(c, s, us, s') && Unwrapped(c, s, us) && (forall u :: u in us ==> Fair(c, u))
    requires SpliceAhead(s) || s'.bound != s.bound
    ensures ClosedOver(c, Devices(c, s), s'.bound)
  {
    hide Exec, Unwrapped, OrderlyInv, Common, UnderWay, Resting, SpliceAhead, Coming, Known, WalkWhole, PairOk, Waits;
    hide ListInv, WorkerInv, CountInv, GateInv, FlushInv, AskedInv, RetryInv, OwedInv, SnapInv, TodoInv, MissInv,
      WakeInv;
    RetriedAlong(c, s, us, s');
    RestIsStill(s');
    forall r, d | d in Devices(c, s) && r in c.DriversOf(d) && c.Needs(r, d) <= s'.bound ensures d in s'.bound {
      hide InPlay, Config.DriversOf, Config.Needs;
      var q := PlayPair(c, s, d);
      PairAlong(c, s, us, s', q, d);
      if PairOk(c, s', q, d) {
        PairInPlay(c, s', q, d);
        RestingWaits(c, s', r, d);
        Misses(c, s', r, d);
      }
    }
  }

  lemma Misses(c: Config, s: State, r: Driver, d: Device)
    requires Waits(c, s, r, d)
    ensures !(c.Needs(r, d) <= s.bound)
  {
  }

  lemma PairInPlay(c: Config, s: State, q: Driver, d: Device)
    requires PairOk(c, s, q, d)
    ensures InPlay(c, s, d)
  {
  }

  lemma TurnBinds(c: Config, s: State, us: seq<Step>, s': State)
    requires FullInv(c, s) && OrderlyInv(c, s) && !s.deferAll && FullInv(c, s') && Resting(s') && Turn(c, s)
    requires Exec(c, s, us, s') && Unwrapped(c, s, us) && (forall u :: u in us ==> Fair(c, u))
    ensures s'.bound != s.bound
  {
    hide Exec, Unwrapped, FullInv, OrderlyInv, Fair, Resting, InPlay, Covered, Waits, Config.DriversOf, Config.Needs;
    var r, d :| InPlay(c, s, d) && r in c.DriversOf(d) && Covered(s, r, d) && c.Needs(r, d) <= s.bound;
    NotBoundYet(c, s, d);
    ComingAlong(c, s, us, s', r, d);
    if Coming(c, s', r, d) {
      RestingWaits(c, s', r, d);
      Misses(c, s', r, d);
    }
  }

  /** Something is about to move, or nothing has to. */
  ghost predicate Stirs(c: Config, s: State) {
    SpliceAhead(s) || Turn(c, s) || ClosedOver(c, Devices(c, s), s.bound)
  }

  lemma Outcome(c: Config, s: State, us: seq<Step>, s': State)
    requires FullInv(c, s) && OrderlyInv(c, s) && WalkWhole(c, s) && s.enable && !s.deferAll
    requires Exec(c, s, us, s') && Unwrapped(c, s, us) && (forall u :: u in us ==> Fair(c, u))
    requires FullInv(c, s') && Resting(s')
    ensures if Stirs(c, s) then Least(c, Devices(c, s), s.bound, s'.bound) else s'.bound == s.bound
  {
    hide Exec, Unwrapped, OrderlyInv, Common, UnderWay, Resting, SpliceAhead, Known, WalkWhole, Devices, ClosedOver,
      Least;
    hide ListInv, WorkerInv, CountInv, GateInv, FlushInv, AskedInv, RetryInv, OwedInv, SnapInv, TodoInv, MissInv,
      WakeInv;
    hide InPlay, Covered;
    if !Stirs(c, s) {
      if s'.bound != s.bound { FirstBound(c, s, us, s'); }
    } else {
      if ClosedOver(c, Devices(c, s), s.bound) {
        NothingToBind(c, s, us, s');
      } else {
        if Turn(c, s) { TurnBinds(c, s, us, s'); }
        OutcomeClosed(c, s, us, s');
      }
      OutcomeBelow(c, s, us, s');
    }
  }

  lemma NothingToBind(c: Config, s: State, us: seq<Step>, s': State)
    requires Inv(c, s) && OrderlyInv(c, s) && Exec(c, s, us, s') && (forall u :: u in us ==> UnderWay(u))
    requires ClosedOver(c, Devices(c, s), s.bound)
    ensures s'.bound == s.bound
  {
    hide Exec, Inv, OrderlyInv, UnderWay, Known, InPlay, ClosedOver;
    forall d | InPlay(c, s, d) ensures d in Devices(c, s) { InPlayKnown(c, s, d); }
    RunBelow(c, s, us, s', Devices(c, s), s.bound);
  }

  /** Every schedule ends with the same devices bound. From any state that orderly steps lead to, with deferral enabled,
      probing not blocked and no failed driver in the walk under way, let the threads under way run in any order,
      without failures, until none can go on. If the state stirs, what is bound then is the least set above what was
      bound that contains every device in play for which it contains the suppliers of one of its drivers; if it does
      not, nothing more is bound, and that is less. */
  lemma EveryScheduleBindsLeast(c: Config, ts: seq<Step>, s: State, us: seq<Step>, s': State)
    requires s.enable && !s.deferAll && WalkWhole(c, s)
    requires Exec(c, Init(), ts, s) && Unwrapped(c, Init(), ts) && (forall t :: t in ts ==> Orderly(t))
    requires Exec(c, s, us, s') && Unwrapped(c, s, us) && (forall u :: u in us ==> Fair(c, u))
    requires Stuck(c, s')
    ensures Least(c, Devices(c, s), s.bound, s'.bound) <==> Stirs(c, s)
    ensures !Stirs(c, s) ==> s'.bound == s.bound
  {
    hide Exec, Unwrapped, WalkWhole, OrderlyInv, Known, Stuck, ClosedOver, Devices, Init, Resting, UnderWay, Common;
    hide Waits, ListInv, WorkerInv, CountInv, GateInv, FlushInv, AskedInv, RetryInv, OwedInv, SnapInv, TodoInv, MissInv,
      WakeInv, SpliceAhead, Turn;
    OrderlyStart(c);
    FullAlong(c, Init(), ts, s);
    FullAlong(c, s, us, s');
    OrderlyAlong(c, Init(), ts, s);
    EveryScheduleServes(c, ts, s, us, s');
    Outcome(c, s, us, s');
  }

  /** So two schedules from one state end with the same devices bound. */
  lemma OutcomeIsUnique(c: Config, ts: seq<Step>, s: State, us: seq<Step>, s1: State, vs: seq<Step>, s2: State)
    requires s.enable && !s.deferAll && WalkWhole(c, s)
    requires Exec(c, Init(), ts, s) && Unwrapped(c, Init(), ts) && (forall t :: t in ts ==> Orderly(t))
    requires Exec(c, s, us, s1) && Unwrapped(c, s, us) && (forall u :: u in us ==> Fair(c, u))
    requires Exec(c, s, vs, s2) && Unwrapped(c, s, vs) && (forall v :: v in vs ==> Fair(c, v))
    requires Stuck(c, s1) && Stuck(c, s2)
    ensures s1.bound == s2.bound
  {
    hide Exec, Unwrapped, WalkWhole, Fair, Stuck, ClosedOver, Devices, Init, Stirs;
    EveryScheduleBindsLeast(c, ts, s, us, s1);
    EveryScheduleBindsLeast(c, ts, s, vs, s2);
  }

  // ---------------------------------------------------------------- one driver per device

  ghost predicate OneDriver(c: Config) {
    forall d, q, r :: q in c.DriversOf(d) && r in c.DriversOf(d) ==> q == r
  }

  lemma OneDriverWalks(c: Config, s: State)
    requires OneDriver(c)
    ensures WalkWhole(c, s)
  {
    hide InHand, Config.DriversOf;
  }

  lemma OneDriverCovers(c: Config, s: State, r: Driver, d: Device)
    requires OneDriver(c) && RetryInv(c, s) && AskedInv(s) && OrderlyInv(c, s) && InPlay(c, s, d) && r in c.DriversOf(d)
    ensures Covered(s, r, d)
  {
    hide Config.DriversOf, Config.Needs;
    var q :| q in c.DriversOf(d) && InHand(s, q, d);
    assert q == r;
    if d in s.pending {
      var p :| (p, d) in s.asked;
      assert p == r;
    }
  }

  lemma OneDriverStirs(c: Config, s: State)
    requires OneDriver(c) && Inv(c, s) && OrderlyInv(c, s)
    ensures Stirs(c, s)
  {
    hide OneDriver, InPlay, Covered, OrderlyInv, ListInv, WorkerInv, CountInv, GateInv, FlushInv, AskedInv, RetryInv;
    hide OwedInv, SpliceAhead, Known, Config.DriversOf, Config.Needs;
    if r, d :| d in Devices(c, s) && r in c.DriversOf(d) && c.Needs(r, d) <= s.bound && d !in s.bound {
      OneDriverCovers(c, s, r, d);
    }
  }

  lemma OneDriverCommon(c: Config, s: State, t: Step)
    requires OneDriver(c) && Can(c, s, t) && RetryInv(c, s) && TodoInv(c, s)
    ensures Common(c, t)
  {
    hide Config.DriversOf, Config.Needs;
  }

  lemma {:induction false} OneDriverFair(c: Config, s: State, us: seq<Step>, s': State)
    requires OneDriver(c) && FullInv(c, s) && Exec(c, s, us, s') && Unwrapped(c, s, us)
    requires forall u :: u in us ==> Willing(u)
    ensures forall u :: u in us ==> Fair(c, u)
    decreases |us|
  {
    hide Do, Can, Wraps, OneDriver, Common, Willing, ListInv, WorkerInv, CountInv, GateInv, FlushInv, AskedInv;
    hide RetryInv, OwedInv, SnapInv, TodoInv, MissInv, WakeInv;
    if us != [] {
      OneDriverCommon(c, s, us[0]);
      FullStep(c, s, us[0]);
      assert forall v :: v in us[1..] ==> v in us;
      OneDriverFair(c, Do(c, s, us[0]), us[1..], s');
      assert forall v :: v in us ==> v == us[0] || v in us[1..];
    }
  }

  /** With one driver per device nothing has to be asked of the state or of the device links, and every schedule ends
      with the least closed set bound. */
  lemma OneDriverBindsLeast(c: Config, ts: seq<Step>, s: State, us: seq<Step>, s': State)
    requires OneDriver(c) && s.enable && !s.deferAll
    requires Exec(c, Init(), ts, s) && Unwrapped(c, Init(), ts) && (forall t :: t in ts ==> Orderly(t))
    requires Exec(c, s, us, s') && Unwrapped(c, s, us) && (forall u :: u in us ==> Willing(u))
    requires Stuck(c, s')
    ensures Least(c, Devices(c, s), s.bound, s'.bound)
  {
    hide Exec, Unwrapped, OneDriver, WalkWhole, Fair, OrderlyInv, Stuck, Least, Devices, Init, UnderWay, Stirs;
    hide ListInv, WorkerInv, CountInv, GateInv, FlushInv, AskedInv, RetryInv, OwedInv, SnapInv, TodoInv, MissInv,
      WakeInv;
    OrderlyStart(c);
    FullAlong(c, Init(), ts, s);
    OrderlyAlong(c, Init(), ts, s);
    OneDriverWalks(c, s);
    OneDriverStirs(c, s);
    OneDriverFair(c, s, us, s');
    EveryScheduleBindsLeast(c, ts, s, us, s');
  }
}
