/** The worker's walk along the drivers of a device: which answers of a probe end it, and what is free to happen. */
module DeferredProbeWalk {
  import opened ProbeLists
  import opened DeferredProbe
  import opened DeferredProbeSafety

  /** The moves of a probing thread that settle what the probe returns. */
  predicate Settles(m: Move) {
    m.Reject? || m.Force? || m.Missing? || m.Fail? || m.Abort? || m.Bind?
  }

  /** What is not a positive error of the callback: success, a device that is gone or bound already, a block, a device
      link, or an error around the callback. */
  predicate EndsWalk(m: Move) {
    m.Bind? || m.Reject? || m.Force? || m.Abort? || (m.Missing? && m.link)
  }

  /** The retry of `d` has its answer, and the walk has `todo` before it. */
  ghost predicate Answered(s: State, d: Device, ends: bool, todo: set<Driver>) {
    && d in s.probes && s.probes[d].entry.Retry? && s.worker.Retrying? && s.worker.d == d
    && (match s.probes[d].stage
        case Bound => ends
        case Deferring(_, stop) => stop == ends
        case Added(_, stop) => stop == ends
        case Moved(stop) => stop == ends
        case Leaving(stop) => stop == ends
        case _ => false)
    && (!ends ==> s.worker.todo == todo && d !in s.bound && d !in s.gone)
  }

  lemma AnsweredMove(c: Config, s: State, d: Device, m: Move, ends: bool, todo: set<Driver>)
    requires Answered(s, d, ends, todo) && Can(c, s, Probe(d, m))
    ensures Answered(DoProbe(c, s, d, m), d, ends, todo)
  {
    hide Del, AddTail, Except;
  }

  lemma AnsweredOther(c: Config, s: State, e: Device, m: Move, d: Device, ends: bool, todo: set<Driver>)
    requires Answered(s, d, ends, todo) && Can(c, s, Probe(e, m)) && e != d
    ensures Answered(DoProbe(c, s, e, m), d, ends, todo)
  {
    hide Next, Del, AddTail;
  }

  lemma AnsweredWork(c: Config, s: State, w: WorkerMove, d: Device, ends: bool, todo: set<Driver>)
    requires Answered(s, d, ends, todo) && CanWork(s, w) && !w.MatchCut?
    ensures Answered(DoWork(c, s, w), d, ends, todo)
  {
  }

  lemma AnsweredStep(c: Config, s: State, t: Step, d: Device, ends: bool, todo: set<Driver>)
    requires Answered(s, d, ends, todo) && Can(c, s, t) && t != Leave(d) && !(t.Work? && t.w.MatchCut?)
    ensures Answered(Do(c, s, t), d, ends, todo)
  {
    hide DoProbe, DoWork, DoPause, DoTrig, CanMove, CanWork, AddByMatch, Del;
    match t
    case Probe(e, m) =>
      if e == d { AnsweredMove(c, s, d, m, ends, todo); } else { AnsweredOther(c, s, e, m, d, ends, todo); }
    case Work(w) => AnsweredWork(c, s, w, d, ends, todo);
    case _ =>
  }

  lemma {:induction false} AnsweredAlong(c: Config, s: State, us: seq<Step>, s': State, d: Device, ends: bool,
      todo: set<Driver>)
    requires Answered(s, d, ends, todo) && Exec(c, s, us, s')
    requires forall u :: u in us ==> u != Leave(d) && !(u.Work? && u.w.MatchCut?)
    ensures Answered(s', d, ends, todo)
    decreases |us|
  {
    hide Do, Can, Answered;
    if us != [] {
      assert us[0] in us;
      AnsweredStep(c, s, us[0], d, ends, todo);
      assert forall u :: u in us[1..] ==> u in us;
      AnsweredAlong(c, Do(c, s, us[0]), us[1..], s', d, ends, todo);
    }
  }

  lemma AnswerGiven(c: Config, s: State, d: Device, m: Move)
    requires ListInv(s) && RetryInv(c, s) && Can(c, s, Probe(d, m)) && s.probes[d].entry.Retry? && Settles(m)
    ensures s.worker.Retrying? && Answered(DoProbe(c, s, d, m), d, EndsWalk(m), s.worker.todo)
  {
    hide NoDup, Del, AddTail, Except, Config.DriversOf;
  }

  /** Whatever else happens meanwhile, when a retry drops the device lock the walk goes on with the drivers it had left
      if the callback failed or deferred, and is over otherwise. */
  lemma WalkGoesOnExactly(c: Config, s: State, d: Device, m: Move, us: seq<Step>, s': State)
    requires ListInv(s) && RetryInv(c, s) && Can(c, s, Probe(d, m)) && s.probes[d].entry.Retry? && Settles(m)
    requires Exec(c, Do(c, s, Probe(d, m)), us, s') && Can(c, s', Leave(d))
    requires forall u :: u in us ==> u != Leave(d) && !(u.Work? && u.w.MatchCut?)
    ensures s.worker.Retrying?
    ensures Do(c, s', Leave(d)).worker == Retrying(d, if EndsWalk(m) then {} else s.worker.todo)
  {
    hide ListInv, RetryInv, Exec, DoProbe, CanMove;
    AnswerGiven(c, s, d, m);
    AnsweredAlong(c, Do(c, s, Probe(d, m)), us, s', d, EndsWalk(m), s.worker.todo);
  }

  /** A match callback that defers ends the walk too, and puts its device on the pending list unless it is listed. */
  lemma MatchDeferralEndsWalk(c: Config, s: State, miss: Miss)
    requires Can(c, s, Work(MatchCut(miss)))
    ensures var t := Do(c, s, Work(MatchCut(miss)));
      && t.worker == Retrying(miss.d, {}) && t.matching == s.matching - {miss}
      && t.active == s.active && t.pending == s.pending + if s.Listed(miss.d) then [] else [miss.d]
  {
  }

  /** What is free to happen at any time, and what it does: a matching driver is probed or attached, a bound device is
      detached, a device dies, a match callback misses a supplier. */
  lemma Freedoms(c: Config, s: State, d: Device, r: Driver, x: Device)
    requires d !in s.probes
    ensures r in c.DriversOf(d) ==> Can(c, s, Snap(d, r)) && Can(c, s, Attach(d, r))
    ensures d in s.bound ==> Can(c, s, Release(d)) && Do(c, s, Release(d)) == s.(bound := s.bound - {d})
    ensures Can(c, s, Kill(d)) && Do(c, s, Kill(d)).gone == s.gone + {d}
    ensures x in c.Needs(r, d) && x !in s.bound ==>
      Can(c, s, MatchMiss(d, r, x)) && Miss(r, d, s.count) in Do(c, s, MatchMiss(d, r, x)).matching
  {
  }

  /** A dead device is taken off the lists. */
  lemma DeadIsDropped(c: Config, s: State, d: Device)
    requires d in s.gone
    ensures Can(c, s, Drop(d)) && !Do(c, s, Drop(d)).Listed(d)
  {
  }

  /** The power-management thread, when nothing of its own is in progress, blocks probing at once, and unblocking
      triggers a retry of everything pending. */
  lemma BlockAndUnblock(c: Config, s: State)
    requires Pm !in s.triggers
    ensures s.gate.Open? ==> Can(c, s, Pause(Block)) && Do(c, s, Pause(Block)).deferAll
    ensures s.gate.Closed? ==>
      && Can(c, s, Pause(Unblock))
      && var t := Do(c, s, Pause(Unblock)); !t.deferAll && Pm in t.triggers && t.triggers[Pm].Check?
  {
  }
}
