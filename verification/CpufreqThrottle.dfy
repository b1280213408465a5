/**
 Thermal throttling in the CPU frequency driver as an interleaved step system. Attention to the
 hardware is one baton: it is with the enabled interrupt, with the interrupt thread, with the queued
 polling work, or with a running poll that has not decided yet. Bringing the CPU online and taking it
 offline run beside that.
 */
module CpufreqThrottle {

  /** The interrupt thread: about to disable the line, then about to schedule the work. */
  datatype Handler = Idle | Entered | Disabled

  /** Where the policy is between two hotplug callbacks. */
  datatype Phase =
    | Down      // offline, or not yet brought up
    | Starting  // online has cleared cancel_throttle; ready comes next
    | Up
    | Stopping  // offline has set cancel_throttle
    | Drained   // and has waited for the work

  datatype State = State(
    depth: nat,        // how often the interrupt is disabled; a fresh line starts disabled once
    cancel: bool,      // cancel_throttle
    queued: bool,      // throttle_work is pending
    polling: bool,     // qcom_lmh_dcvs_notify runs and has not taken throttle_lock yet
    handler: Handler,
    phase: Phase,
    lost: bool)        // a poll was dropped and nobody will enable the interrupt for it

  /** qcom_cpufreq_hw_lmh_init: cancel_throttle clear, the line not enabled, ready still to come. */
  function Fresh(): State {
    State(1, false, false, false, Idle, Starting, false)
  }

  datatype Step =
    | Fire                                      // the line is enabled and the hardware throttles
    | Disable                                   // disable_irq_nosync in the interrupt thread
    | Schedule                                  // schedule_delayed_work there
    | Poll                                      // the work starts
    | Decide(throttled: nat, requested: nat)    // the section of qcom_lmh_dcvs_notify under throttle_lock
    | Online | Ready                            // qcom_cpufreq_hw_cpu_online, qcom_cpufreq_ready
    | Cancel | Flush | Offline                  // the three parts of qcom_cpufreq_hw_cpu_offline

  predicate Can(s: State, t: Step) {
    match t
    case Fire => s.depth == 0 && s.handler.Idle?
    case Disable => s.handler.Entered?
    case Schedule => s.handler.Disabled?
    case Poll => s.queued && !s.polling
    case Decide(_, _) => s.polling
    case Online => s.phase.Down?
    case Ready => s.phase.Starting? && s.depth > 0
    case Cancel => s.phase.Up?
    case Flush => s.phase.Stopping? && !s.polling
    case Offline => s.phase.Drained?
  }

  /** A poll under cancel_throttle goes nowhere; otherwise it enables the interrupt when the hardware
      allows what was requested and polls on when it does not. */
  function Decided(s: State, throttled: nat, requested: nat): State {
    if s.cancel then s.(polling := false, lost := true)
    else if throttled >= requested then s.(polling := false, depth := if s.depth > 0 then s.depth - 1 else 0)
    else s.(polling := false, queued := true)
  }

  function Do(s: State, t: Step): State
    requires Can(s, t)
  {
    match t
    case Fire => s.(handler := Entered)
    case Disable => s.(handler := Disabled, depth := s.depth + 1)
    case Schedule => s.(handler := Idle, queued := true)
    case Poll => s.(queued := false, polling := true)
    case Decide(throttled, requested) => Decided(s, throttled, requested)
    case Online => s.(phase := Starting, cancel := false)
    case Ready => s.(phase := Up, depth := s.depth - 1)
    case Cancel => s.(phase := Stopping, cancel := true)
    case Flush => s.(phase := Drained, queued := false, lost := s.lost || s.queued)
    case Offline => s.(phase := Down, depth := s.depth + 1)
  }

  predicate Exec(s: State, ts: seq<Step>, s': State)
    decreases |ts|
  {
    if ts == [] then s' == s
    else Can(s, ts[0]) && Exec(Do(s, ts[0]), ts[1..], s')
  }

  function One(b: bool): nat { if b then 1 else 0 }

  /** A poll, or an interrupt thread on its way to one, owes the interrupt an enable. */
  predicate Owing(s: State) {
    s.handler.Disabled? || s.queued || s.polling
  }

  /** Nobody has taken the line down for hotplug. */
  predicate Open(s: State) {
    s.phase.Up? || s.phase.Stopping? || s.phase.Drained?
  }

  /** There is one baton. */
  predicate Single(s: State) {
    && (!s.handler.Idle? ==> !s.queued && !s.polling && !s.lost)
    && (s.queued ==> !s.polling && !s.lost)
    && (s.polling ==> !s.lost)
  }

  /** The interrupt is disabled once for hotplug, and once for a poll that owes an enable or was lost;
      cancel_throttle covers the way down. */
  predicate Inv(s: State) {
    && Single(s)
    && s.depth == One(!Open(s)) + One(Owing(s) || s.lost)
    && (s.cancel <==> s.phase.Stopping? || s.phase.Drained? || s.phase.Down?)
  }

  lemma InvStep(s: State, t: Step)
    requires Inv(s) && Can(s, t)
    ensures Inv(Do(s, t))
  {
  }

  lemma {:induction false} InvAlong(s: State, ts: seq<Step>, s': State)
    requires Inv(s) && Exec(s, ts, s')
    ensures Inv(s')
    decreases |ts|
  {
    if ts != [] {
      InvStep(s, ts[0]);
      InvAlong(Do(s, ts[0]), ts[1..], s');
    }
  }

  /** The baton is with exactly one holder, or lost. The interrupt holds it while the line is enabled
      and its thread is not running. */
  predicate OneHolder(s: State) {
    One(s.depth == 0 && s.handler.Idle?) + One(!s.handler.Idle?) + One(s.queued) + One(s.polling) + One(s.lost) == 1
  }

  /** In every run, while the CPU is up the baton has exactly one holder unless it is lost, and then the
      interrupt is disabled and nothing polls. */
  lemma BatonHeldOnce(ts: seq<Step>, s: State)
    requires Exec(Fresh(), ts, s) && s.phase.Up?
    ensures OneHolder(s)
    ensures s.lost <==> s.depth > 0 && s.handler.Idle? && !s.queued && !s.polling
  {
    InvAlong(Fresh(), ts, s);
  }

  /** An up epoch that begins with the interrupt enabled keeps the baton to its end. */
  lemma {:induction false} EpochKeepsBaton(s: State, ts: seq<Step>, s': State)
    requires Inv(s) && s.phase.Up? && !s.lost && Exec(s, ts, s')
    requires forall k :: 0 <= k < |ts| ==> !ts[k].Cancel?
    ensures s'.phase.Up? && !s'.lost && OneHolder(s')
    decreases |ts|
  {
    if ts != [] {
      InvStep(s, ts[0]);
      EpochKeepsBaton(Do(s, ts[0]), ts[1..], s');
    }
  }

  /** A poll goes on polling, with the interrupt disabled, exactly while the hardware allows less than was requested,
      and enables the interrupt when it does not. */
  lemma PollsOnExactly(s: State, throttled: nat, requested: nat)
    requires Inv(s) && s.polling && !s.cancel
    ensures var s' := Do(s, Decide(throttled, requested));
      if throttled < requested then s'.queued && s'.depth == s.depth > 0 else !s'.queued && s'.depth == s.depth - 1
  {
  }

  /** A poll has found that the hardware allows what was requested. */
  predicate Releases(t: Step) { t.Decide? && t.throttled >= t.requested }

  /** The last word of a run about the interrupt, which its thread disables and a poll that releases enables. */
  predicate LastEnabled(ts: seq<Step>, was: bool)
    decreases |ts|
  {
    if ts == [] then was
    else
      var t := ts[|ts| - 1];
      Releases(t) || (!t.Disable? && LastEnabled(ts[..|ts| - 1], was))
  }

  lemma {:induction false} ExecLast(s: State, ts: seq<Step>, s': State) returns (u: State)
    requires ts != [] && Exec(s, ts, s')
    ensures Exec(s, ts[..|ts| - 1], u) && Can(u, ts[|ts| - 1]) && s' == Do(u, ts[|ts| - 1])
    decreases |ts|
  {
    hide Do, Can;
    if |ts| == 1 {
      u := s;
    } else {
      u := ExecLast(Do(s, ts[0]), ts[1..], s');
      assert ts[1..][..|ts| - 2] == ts[..|ts| - 1][1..];
    }
  }

  /** Inside an up epoch the interrupt is enabled exactly when a poll that released came after the last time its thread
      disabled it: until the hardware allows what was requested it stays disabled. */
  lemma {:induction false} EnabledExactly(s: State, ts: seq<Step>, s': State)
    requires Inv(s) && s.phase.Up? && !s.lost && Exec(s, ts, s')
    requires forall k :: 0 <= k < |ts| ==> !ts[k].Cancel?
    ensures s'.depth == 0 <==> LastEnabled(ts, s.depth == 0)
    decreases |ts|
  {
    hide Do, Can, Inv;
    if ts != [] {
      var u := ExecLast(s, ts, s');
      EnabledExactly(s, ts[..|ts| - 1], u);
      InvAlong(s, ts[..|ts| - 1], u);
      EpochKeepsBaton(s, ts[..|ts| - 1], u);
      EnabledStep(u, ts[|ts| - 1]);
    }
  }

  lemma EnabledStep(s: State, t: Step)
    requires Inv(s) && s.phase.Up? && !s.lost && Can(s, t) && !t.Cancel?
    ensures Do(s, t).depth == 0 <==> Releases(t) || (!t.Disable? && s.depth == 0)
  {
  }

  /** After ready the interrupt is enabled exactly when nothing of an earlier epoch is still under way
      and no earlier baton was lost. */
  lemma ReadyEnablesExactly(ts: seq<Step>, s: State)
    requires Exec(Fresh(), ts, s) && Can(s, Ready)
    ensures Do(s, Ready).depth == 0 <==> !s.lost && !Owing(s)
  {
    InvAlong(Fresh(), ts, s);
  }

  /** A lost baton stays lost, through any number of later epochs: the interrupt is never enabled and
      nothing ever polls again. */
  lemma {:induction false} LostForGood(s: State, ts: seq<Step>, s': State)
    requires Inv(s) && s.lost && Exec(s, ts, s')
    ensures s'.lost && s'.depth > 0 && !s'.queued && !s'.polling && s'.handler.Idle?
    decreases |ts|
  {
    if ts != [] {
      InvStep(s, ts[0]);
      LostForGood(Do(s, ts[0]), ts[1..], s');
    }
  }

  /** The baton is lost exactly by a step that drops a poll while cancel_throttle is set: the flush of a
      queued one, or the decision of a running one. */
  lemma LostExactly(s: State, t: Step)
    requires Inv(s) && Can(s, t) && !s.lost
    ensures Do(s, t).lost <==> s.cancel && ((t.Flush? && s.queued) || t.Decide?)
  {
  }

  lemma ExecFirst(s: State, t: Step, ts: seq<Step>, s': State)
    requires Can(s, t) && Exec(Do(s, t), ts, s')
    ensures Exec(s, [t] + ts, s')
  {
    assert ([t] + ts)[1..] == ts;
  }

  /** Down and up again. If this starts with the line enabled and no interrupt comes in, the next epoch
      starts with the line enabled; if it starts with a poll queued, the baton is lost and that epoch is
      without interrupt. */
  lemma OfflineWhilePollingLosesBaton(s: State)
    requires Inv(s) && s.phase.Up? && !s.lost && s.handler.Idle? && !s.polling
    ensures exists s' ::
      && Exec(s, [Cancel] + ([Flush] + ([Offline] + ([Online] + ([Ready] + [])))), s')
      && s'.phase.Up? && (s'.depth == 0 <==> s.depth == 0) && (s'.lost <==> s.queued)
  {
    var s1 := Do(s, Cancel);
    var s2 := Do(s1, Flush);
    var s3 := Do(s2, Offline);
    var s4 := Do(s3, Online);
    var s5 := Do(s4, Ready);
    ExecFirst(s4, Ready, [], s5);
    ExecFirst(s3, Online, [Ready] + [], s5);
    ExecFirst(s2, Offline, [Online] + ([Ready] + []), s5);
    ExecFirst(s1, Flush, [Offline] + ([Online] + ([Ready] + [])), s5);
    ExecFirst(s, Cancel, [Flush] + ([Offline] + ([Online] + ([Ready] + []))), s5);
  }

  /** The baton is on its way: with the interrupt thread, the queued work or a running poll. */
  predicate Outstanding(s: State) {
    !s.handler.Idle? || s.queued || s.polling
  }

  /** The interrupt is never enabled again. */
  ghost predicate OffForGood(s: State) {
    forall us, s' :: Exec(s, us, s') ==> s'.depth > 0 && !Outstanding(s')
  }

  /** Losing it happens: from the start the interrupt fires once, the CPU goes down with the poll queued and comes up
      again, and whatever follows the interrupt is never enabled. */
  lemma LossIsReached()
    ensures exists ts, s :: Exec(Fresh(), ts, s) && s.phase.Up? && s.lost && OffForGood(s)
  {
    var s1 := Do(Fresh(), Ready);
    var s2 := Do(s1, Fire);
    var s3 := Do(s2, Disable);
    var s4 := Do(s3, Schedule);
    OfflineWhilePollingLosesBaton(s4);
    var cycle := [Cancel] + ([Flush] + ([Offline] + ([Online] + ([Ready] + []))));
    var up :| Exec(s4, cycle, up) && up.phase.Up? && up.lost;
    hide Exec;
    ExecFirst(s3, Schedule, cycle, up);
    ExecFirst(s2, Disable, [Schedule] + cycle, up);
    ExecFirst(s1, Fire, [Disable] + ([Schedule] + cycle), up);
    ExecFirst(Fresh(), Ready, [Fire] + ([Disable] + ([Schedule] + cycle)), up);
    var ts := [Ready] + ([Fire] + ([Disable] + ([Schedule] + cycle)));
    InvAlong(Fresh(), ts, up);
    forall us, s' | Exec(up, us, s') ensures s'.depth > 0 && !Outstanding(s') { LostForGood(up, us, s'); }
  }

  /** Between the moment offline sets cancel_throttle and the next online, in any interleaving: the interrupt still has
      the baton exactly if it had it and has not fired since. So the baton is lost exactly when it was on its way
      then, or the interrupt fired on the way down, and nobody carries it any longer. */
  lemma {:induction false} CancelledLosesExactly(s: State, ts: seq<Step>, s': State)
    requires Inv(s) && s.cancel && !s.lost && Exec(s, ts, s') && (forall k :: 0 <= k < |ts| ==> !ts[k].Online?)
    ensures s'.lost <==> (Outstanding(s) || exists k :: 0 <= k < |ts| && ts[k].Fire?) && !Outstanding(s')
    decreases |ts|
  {
    if ts != [] {
      var t, s1 := ts[0], Do(s, ts[0]);
      InvStep(s, t);
      assert t.Fire? ==> ts[0].Fire?;
      assert forall k :: 0 <= k < |ts| - 1 ==> ts[1..][k] == ts[k + 1];
      assert (exists k :: 0 <= k < |ts| && ts[k].Fire?) <==>
        t.Fire? || exists k :: 0 <= k < |ts[1..]| && ts[1..][k].Fire? by {
        if k :| 0 < k < |ts| && ts[k].Fire? { assert ts[1..][k - 1].Fire?; }
        if k :| 0 <= k < |ts[1..]| && ts[1..][k].Fire? { assert ts[k + 1].Fire?; }
      }
      if s1.lost {
        LostForGood(s1, ts[1..], s');
      } else {
        CancelledLosesExactly(s1, ts[1..], s');
      }
    }
  }

  /** A whole way down and up, in any interleaving with interrupts and polls: the next epoch has no interrupt and nobody
      to give it back exactly when a poll or an interrupt thread was under way when it began, or the interrupt
      fired on the way down, and it was over by the time online cleared cancel_throttle. */
  lemma CycleLosesExactly(s: State, down: seq<Step>, low: State, up: seq<Step>, s': State)
    requires Inv(s) && s.phase.Up? && !s.lost
    requires Exec(Do(s, Cancel), down, low) && low.phase.Down? && (forall k :: 0 <= k < |down| ==> !down[k].Online?)
    requires Exec(Do(low, Online), up, s') && s'.phase.Up? && (forall k :: 0 <= k < |up| ==> !up[k].Cancel?)
    ensures s'.lost <==> (Outstanding(s) || exists k :: 0 <= k < |down| && down[k].Fire?) && !Outstanding(low)
    ensures s'.lost <==> s'.depth > 0 && !Outstanding(s')
  {
    InvStep(s, Cancel);
    InvAlong(Do(s, Cancel), down, low);
    CancelledLosesExactly(Do(s, Cancel), down, low);
    InvStep(low, Online);
    NothingLostUp(Do(low, Online), up, s');
  }

  lemma {:induction false} NothingLostUp(s: State, ts: seq<Step>, s': State)
    requires Inv(s) && !s.cancel && Exec(s, ts, s') && (forall k :: 0 <= k < |ts| ==> !ts[k].Cancel?)
    ensures Inv(s') && !s'.cancel && (s'.lost <==> s.lost)
    decreases |ts|
  {
    if ts != [] {
      InvStep(s, ts[0]);
      NothingLostUp(Do(s, ts[0]), ts[1..], s');
    }
  }

  /** From the moment offline sets cancel_throttle until online clears it, no poll enables the interrupt
      and none queues itself again: the disable depth only grows, and work that appears was scheduled by
      an interrupt thread. */
  lemma {:induction false} QuietWhileCancelled(s: State, ts: seq<Step>, s': State)
    requires Inv(s) && s.cancel && Exec(s, ts, s') && (forall k :: 0 <= k < |ts| ==> !ts[k].Online?)
    ensures s'.cancel && s'.depth >= s.depth
    ensures s'.queued ==> s.queued || exists k :: 0 <= k < |ts| && ts[k].Schedule?
    decreases |ts|
  {
    if ts != [] {
      var s1 := Do(s, ts[0]);
      InvStep(s, ts[0]);
      QuietWhileCancelled(s1, ts[1..], s');
      if s'.queued && !s.queued && !ts[0].Schedule? {
        var k :| 0 <= k < |ts[1..]| && ts[1..][k].Schedule?;
        assert ts[k + 1].Schedule?;
      }
    }
  }

  /** The driver's data for one policy, with the callbacks that change it. Each method is what one
      thread does without giving way. */
  class Throttle {
    var depth: nat
    var cancelThrottle: bool
    var workQueued: bool
    var workRunning: bool
    var thread: Handler
    var phase: Phase
    ghost var lost: bool

    ghost function View(): State
      reads this
    {
      State(depth, cancelThrottle, workQueued, workRunning, thread, phase, lost)
    }

    /** qcom_cpufreq_hw_lmh_init */
    constructor ()
      ensures View() == Fresh() && Inv(View())
    {
      depth, cancelThrottle, workQueued, workRunning := 1, false, false, false;
      thread, phase, lost := Idle, Starting, false;
    }

    /** qcom_lmh_dcvs_handle_irq */
    method HandleIrq()
      requires Inv(View()) && thread.Entered?
      modifies this
      ensures Inv(View()) && View() == Do(Do(old(View()), Disable), Schedule)
    {
      depth := depth + 1;
      workQueued := true;
      thread := Idle;
    }

    /** qcom_lmh_dcvs_notify, called from the work with the frequencies it reads. enable_irq finds the
        line disabled: the disable it answers is this poll's own. */
    method Notify(throttled: nat, requested: nat)
      requires Inv(View()) && workRunning
      modifies this
      ensures Inv(View()) && View() == Do(old(View()), Decide(throttled, requested))
      ensures !old(cancelThrottle) && throttled >= requested ==> depth == old(depth) - 1
    {
      workRunning := false;
      if cancelThrottle { lost := true; return; }
      if throttled >= requested { depth := depth - 1; } else { workQueued := true; }
    }

    /** qcom_cpufreq_hw_cpu_online */
    method GoOnline()
      requires Inv(View()) && phase.Down?
      modifies this
      ensures Inv(View()) && View() == Do(old(View()), Online)
    {
      cancelThrottle, phase := false, Starting;
    }

    /** qcom_cpufreq_ready */
    method BecomeReady()
      requires Inv(View()) && phase.Starting?
      modifies this
      ensures Inv(View()) && Can(old(View()), Ready) && View() == Do(old(View()), Ready)
    {
      depth, phase := depth - 1, Up;
    }

    /** qcom_cpufreq_hw_cpu_offline. A poll that is running, whatever frequencies it reads, ends while
        cancel_delayed_work_sync waits for it. */
    method GoOffline(throttled: nat, requested: nat)
      requires Inv(View()) && phase.Up?
      modifies this
      ensures Inv(View())
      ensures var s := Do(old(View()), Cancel);
        View() == Do(Do(if s.polling then Do(s, Decide(throttled, requested)) else s, Flush), Offline)
    {
      cancelThrottle, phase := true, Stopping;
      if workRunning { Notify(throttled, requested); }
      lost := lost || workQueued;
      workQueued := false;
      depth, phase := depth + 1, Down;
    }
  }
}
