/**
 Deferred probing in the driver core as an interleaved step system: any number of probing
 threads (one per device, because a probe holds the device lock), the retry worker, the
 power-management thread that blocks and unblocks probing, and the late initcall that enables
 deferral. A step is what the code does between two points where another thread may get in:
 a critical section of deferred_probe_mutex, one atomic operation, or one read of a flag.
 */
module DeferredProbe {
  import opened ProbeLists

  type Driver = nat

  /** The drivers that match each device, and the suppliers a probe of a device by a driver asks for. */
  datatype Config = Config(drivers: map<Device, set<Driver>>, suppliers: map<(Driver, Device), set<Device>>)
  {
    function DriversOf(d: Device): set<Driver> {
      if d in drivers then drivers[d] else {}
    }

    function Needs(r: Driver, d: Device): set<Device> {
      if (r, d) in suppliers then suppliers[(r, d)] else {}
    }
  }

  /** How __driver_probe_device was entered: through driver_probe_device, from the retry worker or from any
      other thread, or through device_driver_attach. */
  datatype Entry = Direct | Retry | Manual

  /** Where a probing thread is; each constructor names what the thread does next. `stop`: what the probe
      returns, anything but a positive error, ends the walk along the drivers it was called from. */
  datatype Stage =
    | Snapped(snap: nat)                     // counter read; raises probe_count
    | Entered(snap: nat)                     // tests dev->driver and defer_all_probes
    | Probing(snap: nat, todo: set<Device>)  // inside the probe callback
    | Bound                                  // on the driver's list; leaves the deferral lists
    | Deferring(snap: nat, stop: bool)       // got -EPROBE_DEFER; goes on the pending list
    | Added(snap: nat, stop: bool)           // reads the counter again
    | Moved(stop: bool)                      // counter moved; reads defer_all_probes
    | Leaving(stop: bool)                    // lowers probe_count

  datatype Attempt = Attempt(drv: Driver, entry: Entry, stage: Stage)
  {
    predicate Counted() { !entry.Manual? }

    /** The outcome is still open. */
    predicate Open() { stage.Snapped? || stage.Entered? || stage.Probing? || stage.Deferring? }

    /** The outcome is known and ends the walk. */
    predicate Stops() {
      match stage
      case Bound => true
      case Added(_, stop) => stop
      case Moved(stop) => stop
      case Leaving(stop) => stop
      case _ => false
    }
  }

  /** A call of driver_deferred_probe_trigger in progress. */
  datatype Trigger =
    | Check    // tests driver_deferred_probe_enable
    | Armed    // enters the critical section
    | Spliced  // left it; calls queue_work

  datatype Site = At(d: Device) | Pm | Boot

  /** Retrying a device, with the drivers the walk has still to reach. */
  datatype Worker = Sleeping | Looping | Retrying(d: Device, todo: set<Driver>)

  /** The power-management thread: flush_work waits for `left` more runs of the work to end, then the thread waits
      for probe_count. */
  datatype Gate = Open | Flushing(left: nat) | Draining | Closed

  /** A match callback that has decided on -EPROBE_DEFER, and the counter when it missed a supplier. */
  datatype Miss = Miss(r: Driver, d: Device, snap: nat)

  datatype State = State(
    pending: seq<Device>,            // deferred_probe_pending_list
    active: seq<Device>,             // deferred_probe_active_list
    matching: set<Miss>,             // match callbacks on their way to the pending list
    byMatch: set<Device>,            // listed devices that only such deferrals put there
    late: set<Device>,               // those of them whose deferrals all came behind a splice they had not seen
    asked: set<(Driver, Device)>,    // deferrals since the device was listed, apart from such late ones
    owed: set<(Driver, Device)>,     // probes that deferred last time and have had no answer since
    gone: set<Device>,               // devices that are dead or unregistered
    count: nat,                      // deferred_trigger_count, before reduction to 32 bits
    probing: int,                    // probe_count
    deferAll: bool,                  // defer_all_probes
    enable: bool,                    // driver_deferred_probe_enable
    bound: set<Device>,
    probes: map<Device, Attempt>,    // the attempt that holds each device's lock
    triggers: map<Site, Trigger>,
    queued: bool,                    // deferred_probe_work is pending
    worker: Worker,
    gate: Gate)                      // the power-management thread
  {
    predicate Listed(d: Device) {
      d in pending || d in active
    }
  }

  function Init(): State {
    State([], [], {}, {}, {}, {}, {}, {}, 0, 0, false, false, {}, map[], map[], false, Sleeping, Open)
  }

  /** One step of the thread that probes a device. */
  datatype Move =
    | Raise               // atomic_inc(&probe_count)
    | Reject              // dead, unregistered or already bound
    | Pass                // defer_all_probes is clear: the callback starts
    | Force               // defer_all_probes is set: -EPROBE_DEFER
    | Found(x: Device)    // the callback finds supplier x bound
    | Missing(x: Device, link: bool)  // it does not: -EPROBE_DEFER, negative from the device link check
    | Fail                // any other error of the callback, returned positive
    | Abort               // an error around the callback, returned negative
    | Bind                // the callback succeeded; driver_bound starts
    | Unlist              // driver_deferred_probe_del, then the trigger call
    | Add                 // driver_deferred_probe_add
    | Recheck             // second read of the counter
    | Retrigger           // read of defer_all_probes, then the trigger call

  datatype TriggerMove = Test | Splice | Queue
  datatype WorkerMove = Wake | Pop | Try(r: Driver) | Skip | MatchCut(cut: Miss) | Done | Sleep
  datatype GateMove = Block | Flushed | Drained | Unblock

  datatype Step =
    | Snap(d: Device, r: Driver)      // driver_probe_device reads the counter
    | Attach(d: Device, r: Driver)    // device_driver_attach
    | Probe(d: Device, m: Move)
    | Leave(d: Device)                // the thread drops the device lock
    | Trig(site: Site, k: TriggerMove)
    | Work(w: WorkerMove)
    | Pause(g: GateMove)              // device_block_probing, device_unblock_probing
    | Enable                          // deferred_probe_initcall, up to its first trigger
    | Again                           // any later trigger call of the initcall or its timeout
    | MatchMiss(d: Device, r: Driver, x: Device)  // the match callback misses a supplier
    | MatchDefer(miss: Miss)          // its -EPROBE_DEFER: added with no lock and no re-check
    | Release(d: Device)              // the driver is detached
    | Kill(d: Device)                 // the device is marked dead, under its lock
    | Drop(d: Device)                 // driver_deferred_probe_del of a dead device

  predicate CanMove(s: State, a: Attempt, d: Device, m: Move) {
    match m
    case Raise => a.stage.Snapped?
    case Reject => a.stage.Entered? && (d in s.bound || d in s.gone)
    case Pass => a.stage.Entered? && d !in s.bound && d !in s.gone && !s.deferAll
    case Force => a.stage.Entered? && d !in s.bound && d !in s.gone && s.deferAll
    case Found(x) => a.stage.Probing? && x in a.stage.todo && x in s.bound
    case Missing(x, link) => a.stage.Probing? && x in a.stage.todo && x !in s.bound
    case Fail => a.stage.Probing?
    case Abort => a.stage.Probing?
    case Bind => a.stage.Probing? && a.stage.todo == {}
    case Unlist => a.stage.Bound? && At(d) !in s.triggers
    case Add => a.stage.Deferring?
    case Recheck => a.stage.Added?
    case Retrigger => a.stage.Moved? && At(d) !in s.triggers
  }

  predicate CanTrig(s: State, site: Site, k: TriggerMove) {
    site in s.triggers &&
    match k
    case Test => s.triggers[site].Check?
    case Splice => s.triggers[site].Armed?
    case Queue => s.triggers[site].Spliced?
  }

  predicate CanWork(s: State, w: WorkerMove) {
    match w
    case Wake => s.queued && s.worker.Sleeping?
    case Pop => s.worker.Looping? && s.active != []
    case Try(r) => s.worker.Retrying? && r in s.worker.todo && s.worker.d !in s.probes
    case Skip => s.worker.Retrying? && s.worker.todo != {} && (s.worker.d in s.bound || s.worker.d in s.gone)
    case MatchCut(miss) => s.worker.Retrying? && s.worker.d == miss.d && miss in s.matching
    case Done => s.worker.Retrying? && s.worker.todo == {} &&
      !(s.worker.d in s.probes && s.probes[s.worker.d].entry.Retry?)
    case Sleep => s.worker.Looping? && s.active == []
  }

  predicate CanPause(s: State, g: GateMove) {
    Pm !in s.triggers &&
    match g
    case Block => s.gate.Open?
    case Flushed => s.gate == Flushing(0)
    case Drained => s.gate.Draining? && s.probing == 0
    case Unblock => s.gate.Closed?
  }

  predicate Can(c: Config, s: State, t: Step) {
    match t
    case Snap(d, r) => d !in s.probes && r in c.DriversOf(d)
    case Attach(d, r) => d !in s.probes && r in c.DriversOf(d)
    case Probe(d, m) => d in s.probes && CanMove(s, s.probes[d], d, m)
    case Leave(d) => d in s.probes && s.probes[d].stage.Leaving? && At(d) !in s.triggers
    case Trig(site, k) => CanTrig(s, site, k)
    case Work(w) => CanWork(s, w)
    case Pause(g) => CanPause(s, g)
    case Enable => !s.enable && Boot !in s.triggers
    case Again => s.enable && Boot !in s.triggers
    case MatchMiss(d, r, x) => x in c.Needs(r, d) && x !in s.bound
    case MatchDefer(miss) => miss in s.matching
    case Release(d) => d in s.bound && d !in s.probes
    case Kill(d) => d !in s.probes
    case Drop(d) => d in s.gone
  }

  /** The pairs of other devices. */
  function Except(ps: set<(Driver, Device)>, d: Device): (r: set<(Driver, Device)>)
    ensures forall p :: p in r <==> p in ps && p.1 != d
  {
    set p | p in ps && p.1 != d
  }

  /** driver_deferred_probe_del. */
  function Del(s: State, d: Device): (r: State)
    ensures r == s.(pending := r.pending, active := r.active, byMatch := r.byMatch, late := r.late, asked := r.asked)
  {
    s.(pending := Without(s.pending, d), active := Without(s.active, d), byMatch := s.byMatch - {d},
       late := s.late - {d}, asked := Except(s.asked, d))
  }

  /** driver_deferred_probe_add. */
  function AddTail(s: State, d: Device): (r: State)
    ensures r == s.(pending := r.pending)
  {
    if s.Listed(d) then s else s.(pending := s.pending + [d])
  }

  /** The match callback's -EPROBE_DEFER: late if the counter has moved since it missed its supplier. */
  function AddByMatch(s: State, miss: Miss): (r: State)
    ensures r == s.(pending := r.pending, byMatch := r.byMatch, late := r.late, asked := r.asked,
                    matching := r.matching)
  {
    var d := miss.d;
    var added := if s.Listed(d) then {} else {d};
    var r := AddTail(s, d).(byMatch := s.byMatch + added, matching := s.matching - {miss});
    if miss.snap == s.count then r.(late := s.late - {d}, asked := s.asked + {(miss.r, d)})
    else r.(late := s.late + added)
  }

  /** A deferral through device_driver_attach is reported to the caller and not listed. */
  function Deferral(a: Attempt, stop: bool): Stage
    requires a.stage.Entered? || a.stage.Probing?
  {
    if a.Counted() then Deferring(a.stage.snap, stop) else Leaving(stop)
  }

  /** Where the probing thread goes. */
  function Next(c: Config, s: State, a: Attempt, d: Device, m: Move): Stage
    requires CanMove(s, a, d, m)
  {
    match m
    case Raise => Entered(a.stage.snap)
    case Reject => Leaving(true)
    case Pass => Probing(a.stage.snap, c.Needs(a.drv, d))
    case Force => Deferral(a, true)
    case Found(x) => Probing(a.stage.snap, a.stage.todo - {x})
    case Missing(x, link) => Deferral(a, link)
    case Fail => Leaving(false)
    case Abort => Leaving(true)
    case Bind => Bound
    case Unlist => Leaving(true)
    case Add => Added(a.stage.snap, a.stage.stop)
    case Recheck =>
      if s.count % COUNTER_SPAN != a.stage.snap % COUNTER_SPAN then Moved(a.stage.stop) else Leaving(a.stage.stop)
    case Retrigger => Leaving(a.stage.stop)
  }

  /** What the probing thread changes besides its own position. */
  function Effect(s: State, a: Attempt, d: Device, m: Move): (r: State)
    ensures r == s.(pending := r.pending, active := r.active, byMatch := r.byMatch, late := r.late, asked := r.asked,
                    owed := r.owed, probing := r.probing, bound := r.bound, triggers := r.triggers)
  {
    match m
    case Raise => s.(probing := s.probing + 1)
    case Bind => s.(bound := s.bound + {d}, owed := Except(s.owed, d))
    case Unlist => Del(s, d).(triggers := s.triggers[At(d) := Check])
    case Add =>
      AddTail(s, d).(byMatch := s.byMatch - {d}, late := s.late - {d}, asked := s.asked + {(a.drv, d)},
                     owed := s.owed + {(a.drv, d)})
    case Retrigger => if s.deferAll then s else s.(triggers := s.triggers[At(d) := Check])
    case Fail => if a.Counted() then s.(owed := s.owed - {(a.drv, d)}) else s
    case Abort =>
      if a.entry.Retry? then s.(owed := Except(s.owed, d))
      else if a.Counted() then s.(owed := s.owed - {(a.drv, d)})
      else s
    case _ => s
  }

  /** A probe that ends the walk leaves the worker no more drivers to try. */
  function AfterLeave(w: Worker, d: Device, a: Attempt): (r: Worker)
    ensures r == if r.Retrying? && w.Retrying? then w.(todo := r.todo) else w
    ensures w.Retrying? ==> r.Retrying? && r.todo <= w.todo
  {
    if w.Retrying? && w.d == d && a.entry.Retry? && a.Stops() then Retrying(d, {}) else w
  }

  function DoProbe(c: Config, s: State, d: Device, m: Move): (r: State)
    requires d in s.probes && CanMove(s, s.probes[d], d, m)
    ensures d in r.probes && r.probes == s.probes[d := s.probes[d].(stage := r.probes[d].stage)]
    ensures r == s.(probes := r.probes, pending := r.pending, active := r.active, byMatch := r.byMatch, late := r.late,
                    asked := r.asked, owed := r.owed, probing := r.probing, bound := r.bound, triggers := r.triggers)
  {
    var a := s.probes[d];
    Effect(s, a, d, m).(probes := s.probes[d := a.(stage := Next(c, s, a, d, m))])
  }

  /** driver_deferred_probe_trigger */
  function DoTrig(s: State, site: Site, k: TriggerMove): (r: State)
    requires CanTrig(s, site, k)
    ensures r == s.(count := r.count, active := r.active, pending := r.pending, triggers := r.triggers,
                    queued := r.queued)
  {
    match k
    case Test => s.(triggers := if s.enable then s.triggers[site := Armed] else s.triggers - {site})
    case Splice =>
      s.(count := s.count + 1, active := s.active + s.pending, pending := [], triggers := s.triggers[site := Spliced])
    case Queue => s.(queued := true, triggers := s.triggers - {site})
  }

  /** deferred_probe_work_func, and the walk along the drivers it makes through bus_probe_device. */
  function DoWork(c: Config, s: State, w: WorkerMove): (r: State)
    requires CanWork(s, w)
    ensures r == s.(queued := r.queued, worker := r.worker, active := r.active, pending := r.pending,
                    byMatch := r.byMatch, late := r.late, asked := r.asked, matching := r.matching,
                    probes := r.probes, gate := r.gate)
    ensures r.gate.Flushing? == s.gate.Flushing? && (!s.gate.Flushing? ==> r.gate == s.gate)
  {
    match w
    case Wake => s.(queued := false, worker := Looping)
    case Pop =>
      var d := s.active[0];
      s.(active := s.active[1..], byMatch := s.byMatch - {d}, late := s.late - {d}, asked := Except(s.asked, d),
         worker := Retrying(d, c.DriversOf(d)))
    case Try(r) =>
      var d := s.worker.d;
      s.(probes := s.probes[d := Attempt(r, Retry, Snapped(s.count))], worker := Retrying(d, s.worker.todo - {r}))
    case Skip => s.(worker := Retrying(s.worker.d, {}))
    case MatchCut(miss) => AddByMatch(s, miss).(worker := Retrying(s.worker.d, {}))
    case Done => s.(worker := Looping)
    case Sleep =>
      s.(worker := Sleeping, gate := if s.gate.Flushing? && s.gate.left > 0 then Flushing(s.gate.left - 1) else s.gate)
  }

  /** The runs of the work still to end: the one that is going on and the one that is queued. */
  function Runs(s: State): nat {
    (if s.worker.Sleeping? then 0 else 1) + (if s.queued then 1 else 0)
  }

  function DoPause(s: State, g: GateMove): (r: State)
    requires CanPause(s, g)
    ensures r == s.(gate := r.gate, deferAll := r.deferAll, triggers := r.triggers)
  {
    match g
    case Block => s.(gate := Flushing(Runs(s)), deferAll := true)
    case Flushed => s.(gate := Draining)
    case Drained => s.(gate := Closed)
    case Unblock => s.(gate := Open, deferAll := false, triggers := s.triggers[Pm := Check])
  }

  /** The beginning and the end of a probe. */
  function DoEnds(s: State, t: Step): (r: State)
    requires t.Snap? || t.Attach? || (t.Leave? && t.d in s.probes)
    ensures r == s.(probes := r.probes, probing := r.probing, worker := r.worker)
  {
    match t
    case Snap(d, drv) => s.(probes := s.probes[d := Attempt(drv, Direct, Snapped(s.count))])
    case Attach(d, drv) => s.(probes := s.probes[d := Attempt(drv, Manual, Entered(s.count))])
    case Leave(d) =>
      s.(probes := s.probes - {d},
         probing := if s.probes[d].Counted() then s.probing - 1 else s.probing,
         worker := AfterLeave(s.worker, d, s.probes[d]))
  }

  /** What happens to a device outside any probe. */
  function DoDevice(s: State, t: Step): (r: State)
    requires t.MatchMiss? || t.MatchDefer? || t.Release? || t.Kill? || t.Drop?
    ensures r == s.(matching := r.matching, pending := r.pending, active := r.active, byMatch := r.byMatch,
                    late := r.late, asked := r.asked, owed := r.owed, bound := r.bound, gone := r.gone)
  {
    match t
    case MatchMiss(d, drv, _) => s.(matching := s.matching + {Miss(drv, d, s.count)})
    case MatchDefer(miss) => AddByMatch(s, miss)
    case Release(d) => s.(bound := s.bound - {d})
    case Kill(d) => s.(gone := s.gone + {d}, owed := Except(s.owed, d))
    case Drop(d) => Del(s, d)
  }

  /** The state after a step. */
  function Do(c: Config, s: State, t: Step): State
    requires Can(c, s, t)
  {
    match t
    case Probe(d, m) => DoProbe(c, s, d, m)
    case Trig(site, k) => DoTrig(s, site, k)
    case Work(w) => DoWork(c, s, w)
    case Pause(g) => DoPause(s, g)
    case Enable => s.(enable := true, triggers := s.triggers[Boot := Check])
    case Again => s.(triggers := s.triggers[Boot := Check])
    case Snap(_, _) => DoEnds(s, t)
    case Attach(_, _) => DoEnds(s, t)
    case Leave(_) => DoEnds(s, t)
    case MatchMiss(_, _, _) => DoDevice(s, t)
    case MatchDefer(_) => DoDevice(s, t)
    case Release(_) => DoDevice(s, t)
    case Kill(_) => DoDevice(s, t)
    case Drop(_) => DoDevice(s, t)
  }

  /** `ts` takes `s` to `s'`. */
  predicate Exec(c: Config, s: State, ts: seq<Step>, s': State)
    decreases |ts|
  {
    if ts == [] then s' == s
    else Can(c, s, ts[0]) && Exec(c, Do(c, s, ts[0]), ts[1..], s')
  }

  // ---------------------------------------------------------------- invariants

  /** At most one place on at most one list; a bound device is off both once driver_bound has
      deleted it, unless a match-time deferral, which takes no device lock, put it back. */
  ghost predicate ListInv(s: State) {
    && NoDup(s.pending + s.active)
    && (forall d :: d in s.byMatch ==> s.Listed(d))
    && (forall d :: d in s.bound && s.Listed(d) && d !in s.byMatch ==> d in s.probes && s.probes[d].stage.Bound?)
    && (forall d :: d in s.probes && (s.probes[d].stage.Probing? || s.probes[d].stage.Deferring?) ==>
      d !in s.bound && d !in s.gone)
    && (forall d :: d in s.probes && s.probes[d].stage.Bound? ==> d in s.bound)
    && (forall d :: d in s.probes && s.probes[d].stage.Deferring? ==> s.probes[d].Counted())
  }

  /** A listed device that is not there by late match deferrals alone was asked for, and only listed devices
      have askers. */
  ghost predicate AskedInv(s: State) {
    && (forall r, d :: (r, d) in s.asked ==> s.Listed(d) && d !in s.late)
    && (forall d :: s.Listed(d) && d !in s.late ==> exists r :: (r, d) in s.asked)
  }

  /** Someone is going to try this driver on this device again. */
  predicate InHand(s: State, r: Driver, d: Device) {
    || s.Listed(d)
    || (s.worker.Retrying? && s.worker.d == d && r in s.worker.todo)
    || (d in s.probes && s.probes[d].drv == r && s.probes[d].Counted() && s.probes[d].Open())
  }

  /** A retry belongs to the worker, and drivers are tried only on devices they match. */
  ghost predicate RetryInv(c: Config, s: State) {
    && (forall d :: d in s.probes ==> s.probes[d].drv in c.DriversOf(d))
    && (forall d :: d in s.probes && s.probes[d].entry.Retry? ==> s.worker.Retrying? && s.worker.d == d)
    && (s.worker.Retrying? ==> s.worker.todo <= c.DriversOf(s.worker.d))
  }

  /** An answer that is owed is in hand, also if the probe now ending ends the worker's walk. */
  predicate PairOk(c: Config, s: State, r: Driver, d: Device) {
    && r in c.DriversOf(d) && d !in s.bound && d !in s.gone && InHand(s, r, d)
    && (d in s.probes && s.probes[d].entry.Retry? && s.probes[d].Stops() ==> s.Listed(d))
  }

  ghost predicate OwedInv(c: Config, s: State) {
    forall r, d :: (r, d) in s.owed ==> PairOk(c, s, r, d)
  }

  /** flush_work waits for no more runs than there are. */
  predicate FlushInv(s: State) {
    s.gate.Flushing? ==> s.gate.left <= Runs(s)
  }

  /** Someone will look at a nonempty active list. */
  ghost predicate WorkerInv(s: State) {
    s.active != [] ==>
      !s.worker.Sleeping? || s.queued || exists site :: site in s.triggers && s.triggers[site].Spliced?
  }

  /** The attempts that have raised probe_count and not lowered it. */
  function CountedProbes(p: map<Device, Attempt>): set<Device> {
    set d | d in p && p[d].Counted() && !p[d].stage.Snapped?
  }

  ghost predicate CountInv(s: State) {
    && s.probing == |CountedProbes(s.probes)|
    && (forall d :: d in s.probes && s.probes[d].stage.Snapped? ==> s.probes[d].Counted())
  }

  ghost predicate GateInv(s: State) {
    && (s.deferAll <==> !s.gate.Open?)
    && (s.gate.Closed? ==> forall d :: d in CountedProbes(s.probes) ==>
      !s.probes[d].stage.Probing? && !s.probes[d].stage.Bound?)
  }

  ghost predicate SnapInv(s: State) {
    forall d :: d in s.probes && s.probes[d].Counted() ==>
      match s.probes[d].stage
      case Snapped(n) => n <= s.count
      case Entered(n) => n <= s.count
      case Probing(n, _) => n <= s.count
      case Deferring(n, _) => n <= s.count
      case Added(n, _) => n <= s.count
      case _ => true
  }

  /** What a callback has still to ask for is among what its driver needs. */
  ghost predicate TodoInv(c: Config, s: State) {
    forall d :: d in s.probes && s.probes[d].stage.Probing? ==> s.probes[d].stage.todo <= c.Needs(s.probes[d].drv, d)
  }

  /** This thread is committed to a trigger, or will be by the counter it reads next. */
  predicate Committed(s: State, d: Device) {
    d in s.probes &&
    match s.probes[d].stage
    case Bound => true
    case Moved(_) => true
    case Added(n, _) => n != s.count
    case _ => false
  }

  /** Some later step splices the pending list. */
  ghost predicate WillSplice(s: State) {
    || !s.enable
    || s.deferAll
    || (exists site :: site in s.triggers && !s.triggers[site].Spliced?)
    || (exists d :: Committed(s, d))
  }

  /** A probe of `d` by `r` still misses a supplier. */
  ghost predicate Waits(c: Config, s: State, r: Driver, d: Device) {
    exists x :: x in c.Needs(r, d) && x !in s.bound
  }

  ghost predicate WakeInv(c: Config, s: State) {
    && (forall r, d :: (r, d) in s.asked && d in s.pending ==> WillSplice(s) || Waits(c, s, r, d))
    && (forall d :: d in s.probes && s.probes[d].stage.Deferring? ==>
          WillSplice(s) || Waits(c, s, s.probes[d].drv, d) || s.probes[d].stage.snap < s.count)
  }

  /** The same for a match callback on its way to the pending list. */
  ghost predicate MissInv(c: Config, s: State) {
    forall miss :: miss in s.matching ==>
      miss.snap <= s.count && (WillSplice(s) || Waits(c, s, miss.r, miss.d) || miss.snap < s.count)
  }
}
