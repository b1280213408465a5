/** The interrupt callbacks of the pin controller, updating registers and bitmaps in place, and the
    handler that dispatches from the bitmap. */
module TlmmIrqChip {
  import opened RegBits
  import opened TlmmIrq

  /** What happens around the scan's visit to a pin, on any pins: before the scan looks at the pin's bitmap bit, between
      that and the read of its status, and while its flow handler runs. Edges that other lines latch, interrupt
      service routines and other processors are all among it. */
  datatype Visit = Visit(before: seq<Op>, between: seq<Op>, flow: seq<Op>)
  {
    predicate Fits(c: Chip) { InChip(c, before) && InChip(c, between) && InChip(c, flow) }
  }

  predicate AllFit(c: Chip, vs: seq<Visit>) {
    |vs| == |c.groups| && forall p :: 0 <= p < |vs| ==> vs[p].Fits(c)
  }

  /** The pin's enable bit is set when the scan reaches it. */
  predicate Reached(c: Chip, s: Irqs, p: nat, v: Visit)
    requires c.Sound() && c.Fits(s) && p < |c.groups| && v.Fits(c)
  {
    Run(c, s, v.before).cfg[p][c.groups[p].enable]
  }

  /** And its status bit when that is read. */
  predicate Found(c: Chip, s: Irqs, p: nat, v: Visit)
    requires c.Sound() && c.Fits(s) && p < |c.groups| && v.Fits(c)
  {
    Reached(c, s, p, v) && Run(c, Run(c, s, v.before), v.between).latched[p]
  }

  /** The state after the visit. */
  function Visited(c: Chip, s: Irqs, p: nat, v: Visit): (t: Irqs)
    requires c.Sound() && c.Fits(s) && p < |c.groups| && v.Fits(c)
    ensures c.Fits(t)
  {
    var t := Run(c, s, v.before);
    if !Reached(c, s, p, v) then t
    else
      var u := Run(c, t, v.between);
      if Found(c, s, p, v) then Run(c, u, v.flow) else u
  }

  /** On the bits: what comes before the visit happens always, what comes between the two reads only if the enable bit
      is set then, and the pin's flow handler only if its status bit is set after that too. */
  lemma VisitMeans(c: Chip, s: Irqs, p: nat, v: Visit)
    requires c.Sound() && c.Fits(s) && p < |c.groups| && v.Fits(c)
    ensures var t := Run(c, s, v.before); var u := Run(c, t, v.between);
      && (!t.cfg[p][c.groups[p].enable] ==> Visited(c, s, p, v) == t)
      && (t.cfg[p][c.groups[p].enable] && !u.latched[p] ==> Visited(c, s, p, v) == u)
      && (t.cfg[p][c.groups[p].enable] && u.latched[p] ==> Visited(c, s, p, v) == Run(c, u, v.flow))
  {
  }

  /** The state when the scan has visited the pins below `n`. */
  function ScanTo(c: Chip, s: Irqs, vs: seq<Visit>, n: nat): (t: Irqs)
    requires c.Sound() && c.Fits(s) && AllFit(c, vs) && n <= |c.groups|
    ensures c.Fits(t)
  {
    if n == 0 then s else Visited(c, ScanTo(c, s, vs, n - 1), n - 1, vs[n - 1])
  }

  /** The scan finds the pin. */
  predicate Finds(c: Chip, s: Irqs, vs: seq<Visit>, p: nat)
    requires c.Sound() && c.Fits(s) && AllFit(c, vs) && p < |c.groups|
  {
    Found(c, ScanTo(c, s, vs, p), p, vs[p])
  }

  /** Nothing happens meanwhile but that the flow handler of each dispatched pin works on that pin. */
  ghost predicate OwnFlow(c: Chip, vs: seq<Visit>) {
    && AllFit(c, vs)
    && (forall p :: 0 <= p < |vs| ==> vs[p].before == [] && vs[p].between == [])
    && forall p, k :: 0 <= p < |vs| && 0 <= k < |vs[p].flow| ==> vs[p].flow[k].pin == p
  }

  /** A run of operations on one pin leaves every other pin's registers, status and bitmap bit alone. */
  lemma {:induction false} RunOwnPin(c: Chip, s: Irqs, ops: seq<Op>, p: nat, q: nat)
    requires c.Sound() && c.Fits(s) && p < |c.groups| && q < |c.groups| && q != p
    requires forall k :: 0 <= k < |ops| ==> ops[k].pin == p
    ensures var t := Run(c, s, ops);
      t.cfg[q] == s.cfg[q] && t.latched[q] == s.latched[q] && (q in t.enabled <==> q in s.enabled)
    decreases |ops|
  {
    if ops != [] {
      var rest, last := ops[..|ops| - 1], ops[|ops| - 1];
      RunOwnPin(c, s, rest, p, q);
      var t, u := Run(c, s, rest), Run(c, s, ops);
      OwnPin(c, t, last);
      assert q in u.enabled - {p} <==> q in t.enabled - {p};
    }
  }

  lemma VisitOwn(c: Chip, s: Irqs, vs: seq<Visit>, p: nat, q: nat)
    requires c.Sound() && c.Fits(s) && OwnFlow(c, vs) && p < |c.groups| && q < |c.groups| && q != p
    ensures Found(c, s, p, vs[p]) <==> Fires(c, s, p)
    ensures var t := Visited(c, s, p, vs[p]); t.cfg[q] == s.cfg[q] && t.latched[q] == s.latched[q]
  {
    hide Apply;
    assert Run(c, s, []) == s;
    RunOwnPin(c, s, vs[p].flow, p, q);
  }

  lemma {:induction false} ScanOwn(c: Chip, s: Irqs, vs: seq<Visit>, n: nat, q: nat)
    requires c.Sound() && c.Fits(s) && OwnFlow(c, vs) && n <= q < |c.groups|
    ensures var t := ScanTo(c, s, vs, n); t.cfg[q] == s.cfg[q] && t.latched[q] == s.latched[q]
  {
    hide Run, Visited;
    if n > 0 {
      ScanOwn(c, s, vs, n - 1, q);
      VisitOwn(c, ScanTo(c, s, vs, n - 1), vs, n - 1, q);
    }
  }

  /** If the flow handlers keep to their pins and nothing else happens, the scan finds exactly the pins whose enable
      and status bits were set when it began. */
  lemma FoundOnEntry(c: Chip, s: Irqs, vs: seq<Visit>, p: nat)
    requires c.Sound() && c.Fits(s) && OwnFlow(c, vs) && p < |c.groups|
    ensures Finds(c, s, vs, p) <==> Fires(c, s, p)
  {
    var t := ScanTo(c, s, vs, p);
    assert Run(c, t, []) == t;
    hide Run, Visited, ScanTo;
    ScanOwn(c, s, vs, p, p);
  }

  lemma RunStep(c: Chip, s: Irqs, ops: seq<Op>, k: nat)
    requires c.Fits(s) && InChip(c, ops) && k < |ops|
    ensures Run(c, s, ops[..k + 1]) == Apply(c, Run(c, s, ops[..k]), ops[k])
  {
    assert ops[..k + 1][..k] == ops[..k];
  }

  lemma FlipPin(cfg: seq<Reg>, p: nat, bit: nat, k: nat)
    requires p < |cfg|
    ensures var c := cfg[p := Flipped(cfg[p], bit, k)];
      c[p := Xor(c[p], Bit(bit))] == cfg[p := Flipped(cfg[p], bit, k + 1)]
    ensures cfg[p := Flipped(cfg[p], bit, 0)] == cfg
  {
  }

  /** The generic handler that runs when the pin's interrupt comes in. */
  datatype Flow = BadFlow | LevelFlow | EdgeFlow | FasteoiFlow | FasteoiAckFlow

  /** What msm_gpio_irq_set_type leaves: a pin its parent handles ends interrupts there, and a pin without a type keeps
      what it had. */
  function FlowOf(c: Chip, p: nat, t: Trigger, parent: bool, was: Flow): Flow {
    if ByParent(c, p, t, parent) then FasteoiAckFlow
    else if p in c.skipWake then FasteoiFlow
    else
      match t
      case LevelLow => LevelFlow
      case LevelHigh => LevelFlow
      case Rising => EdgeFlow
      case Falling => EdgeFlow
      case Both => EdgeFlow
      case NoType => was
  }

  /** Which handler runs: for a pin its parent handles one that ends the interrupt there, acknowledging only when both
      edges are emulated; for any other one that fits the type, edges to the edge handler and levels to the level
      handler. */
  lemma FlowMeans(c: Chip, p: nat, t: Trigger, parent: bool, was: Flow)
    ensures var f := FlowOf(c, p, t, parent, was);
      && (p in c.skipWake ==> f == if t == Both && c.errata && parent then FasteoiAckFlow else FasteoiFlow)
      && (p !in c.skipWake && t in {Rising, Falling, Both} ==> f == EdgeFlow)
      && (p !in c.skipWake && t in {LevelLow, LevelHigh} ==> f == LevelFlow)
      && (p !in c.skipWake && t == NoType ==> f == was)
  {
  }

  /** How the routing register is written: directly, or by a secure call, whose failure is only logged. */
  datatype Route = Mapped | Secure(ok: bool)

  class IrqChip {
    const chip: Chip
    var cfg: seq<Reg>
    var latched: seq<bool>
    var enabledIrqs: set<nat>
    var dualEdgeIrqs: set<nat>
    var targets: seq<Reg>          // where each pin's interrupt is routed
    var parentTypes: seq<Trigger>  // what the parent was last asked for
    var flows: seq<Flow>

    ghost function View(): Irqs
      reads this
    {
      Irqs(cfg, latched, enabledIrqs, dualEdgeIrqs)
    }

    /** The bitmap is the set of pins whose enable bit is set. */
    ghost predicate Valid()
      reads this
    {
      && chip.Sound() && chip.Fits(View()) && |targets| == |parentTypes| == |flows| == |chip.groups|
      && forall p :: 0 <= p < |chip.groups| ==> (p in enabledIrqs <==> cfg[p][chip.groups[p].enable])
    }

    constructor (c: Chip, regs: seq<Reg>, status: seq<bool>, routes: seq<Reg>)
      requires c.Sound() && |regs| == |status| == |routes| == |c.groups|
      requires forall p :: 0 <= p < |regs| ==> !regs[p][c.groups[p].enable]
      ensures Valid() && chip == c && View() == Irqs(regs, status, {}, {}) && targets == routes
    {
      chip, cfg, latched, targets := c, regs, status, routes;
      parentTypes, flows := seq(|c.groups|, _ => NoType), seq(|c.groups|, _ => BadFlow);
      enabledIrqs, dualEdgeIrqs := {}, {};
    }

    ghost predicate Usable(p: nat)
      reads this
    {
      Valid() && p < |chip.groups|
    }

    /** Every operation keeps the bitmap equal to the enable bits. */
    twostate lemma Kept(op: Op)
      requires old(Usable(op.pin)) && View() == Apply(chip, old(View()), op)
      requires |targets| == |parentTypes| == |flows| == |chip.groups|
      ensures Valid()
    {
      forall p | 0 <= p < |chip.groups| ensures p in enabledIrqs <==> cfg[p][chip.groups[p].enable] {
        OpAgrees(chip, old(View()), op, p);
        assert Agrees(chip, old(View()), p);
        assert Agrees(chip, View(), p);
      }
    }

    /** msm_gpio_irq_mask */
    method MaskIrq(p: nat, level: bool)
      requires Usable(p)
      modifies this`cfg, this`latched, this`enabledIrqs, this`dualEdgeIrqs
      ensures Valid() && View() == Apply(chip, old(View()), Mask(p, level))
    {
      if p !in chip.skipWake {
        var g := chip.groups[p];
        var val := cfg[p];
        if level { val := And(val, Not(Bit(g.raw))); }
        val := And(val, Not(Bit(g.enable)));
        cfg := cfg[p := val];
        enabledIrqs := enabledIrqs - {p};
      }
      Kept(Mask(p, level));
    }

    /** msm_gpio_irq_unmask */
    method UnmaskIrq(p: nat)
      requires Usable(p)
      modifies this`cfg, this`latched, this`enabledIrqs, this`dualEdgeIrqs
      ensures Valid() && View() == Apply(chip, old(View()), Unmask(p))
    {
      if p !in chip.skipWake {
        var g := chip.groups[p];
        var val := cfg[p];
        val := Or(val, Bit(g.raw));
        val := Or(val, Bit(g.enable));
        cfg := cfg[p := val];
        enabledIrqs := enabledIrqs + {p};
      }
      Kept(Unmask(p));
    }

    /** msm_gpio_update_dual_edge_pos; `stable` when it returns before its loop limit. */
    method UpdateDualEdgePos(p: nat, rs: nat -> Reading) returns (stable: bool)
      requires chip.Fits(View()) && p < |chip.groups|
      modifies this`cfg
      ensures cfg == old(cfg)[p := Flipped(old(cfg)[p], chip.groups[p].polarity, Flips(rs, 0))]
      ensures stable <==> rs(Flips(rs, 0) - 1).Settled()
    {
      var g := chip.groups[p];
      var limit := 100;
      var k := 0;
      while true
        invariant 0 <= k && k + limit == 100 && limit >= 0
        invariant cfg == old(cfg)[p := Flipped(old(cfg)[p], g.polarity, k)]
        invariant Flips(rs, k) == Flips(rs, 0)
        decreases limit
      {
        FlipPin(old(cfg), p, g.polarity, k);
        cfg := cfg[p := Xor(cfg[p], Bit(g.polarity))];
        if rs(k).Settled() { return true; }
        k := k + 1;
        if limit == 0 { return false; }
        limit := limit - 1;
      }
    }

    /** msm_gpio_irq_ack; for a pin its parent handles see TlmmDualEdge. */
    method AckIrq(p: nat, rs: nat -> Reading)
      requires Usable(p)
      modifies this`cfg, this`latched, this`enabledIrqs, this`dualEdgeIrqs
      ensures Valid() && View() == Apply(chip, old(View()), Ack(p, rs))
    {
      hide Flipped, Flips;
      if p !in chip.skipWake {
        latched := latched[p := false];
        if p in dualEdgeIrqs { var _ := UpdateDualEdgePos(p, rs); }
      }
      Kept(Ack(p, rs));
    }

    method RouteToApps(p: nat, route: Route)
      requires p < |targets| && p < |chip.groups|
      modifies this`targets
      ensures targets == old(targets)[p := if route == Secure(false) then old(targets)[p]
                                           else Routed(chip.groups[p], old(targets)[p])]
    {
      hide Routed;
      if route != Secure(false) { targets := targets[p := Routed(chip.groups[p], targets[p])]; }
    }

    method ChooseFlow(p: nat, t: Trigger, parent: bool)
      requires p < |flows| && p !in chip.skipWake
      modifies this`flows
      ensures flows == old(flows)[p := FlowOf(chip, p, t, parent, old(flows)[p])]
    {
      if t == LevelLow || t == LevelHigh {
        flows := flows[p := LevelFlow];
      } else if t != NoType {
        flows := flows[p := EdgeFlow];
      }
    }

    /** The part of msm_gpio_irq_set_type that writes the pin's own registers. */
    method Retype(p: nat, t: Trigger, parent: bool, rs: nat -> Reading)
      requires Usable(p) && p !in chip.skipWake
      modifies this`cfg, this`latched, this`enabledIrqs, this`dualEdgeIrqs
      ensures Valid() && View() == Apply(chip, old(View()), SetType(p, t, parent, rs))
    {
      hide Routed, Typed, Flipped, Flips;
      var g := chip.groups[p];
      if g.width == 1 && t == Both {
        dualEdgeIrqs := dualEdgeIrqs + {p};
      } else {
        dualEdgeIrqs := dualEdgeIrqs - {p};
      }
      var oldval := cfg[p];
      var val := Typed(g, oldval, t);
      cfg := cfg[p := val];
      if val != oldval { latched := latched[p := false]; }
      if p in dualEdgeIrqs { var _ := UpdateDualEdgePos(p, rs); }
      Kept(SetType(p, t, parent, rs));
    }

    /** msm_gpio_irq_set_type. A parent is asked for the type unless it needs the dual-edge workaround, for which see
        TlmmDualEdge; a pin the parent handles is not routed. */
    method SetTypeIrq(p: nat, t: Trigger, parent: bool, route: Route, rs: nat -> Reading)
      requires Usable(p)
      modifies this
      ensures Valid() && View() == Apply(chip, old(View()), SetType(p, t, parent, rs))
      ensures parentTypes ==
        if parent && !ByParent(chip, p, t, parent) then old(parentTypes)[p := t] else old(parentTypes)
      ensures targets ==
        if p in chip.skipWake || route == Secure(false) then old(targets)
        else old(targets)[p := Routed(chip.groups[p], old(targets)[p])]
      ensures flows == old(flows)[p := FlowOf(chip, p, t, parent, old(flows)[p])]
    {
      hide Routed, Typed, Flipped, Flips;
      if ByParent(chip, p, t, parent) {
        dualEdgeIrqs := dualEdgeIrqs + {p};
        flows := flows[p := FasteoiAckFlow];
        Kept(SetType(p, t, parent, rs));
        return;
      }
      if parent { parentTypes := parentTypes[p := t]; }
      if p in chip.skipWake {
        dualEdgeIrqs := dualEdgeIrqs - {p};
        flows := flows[p := FasteoiFlow];
        Kept(SetType(p, t, parent, rs));
      } else {
        RouteToApps(p, route);
        Retype(p, t, parent, rs);
        ChooseFlow(p, t, parent);
      }
    }

    /** The wakeup bit, set in msm_gpio_irq_reqres and cleared in msm_gpio_irq_relres. */
    method SetWakeup(p: nat, on: bool)
      requires Usable(p)
      modifies this`cfg, this`latched, this`enabledIrqs, this`dualEdgeIrqs
      ensures Valid() && View() == Apply(chip, old(View()), if on then WakeOn(p) else WakeOff(p))
    {
      var g := chip.groups[p];
      if p in chip.skipWake && g.wakePresent != 0 {
        var val := cfg[p];
        if And(val, Bit(g.wakePresent)) != Zero() {
          if on { val := Or(val, Bit(g.wakeEnable)); } else { val := And(val, Not(Bit(g.wakeEnable))); }
          cfg := cfg[p := val];
        }
      }
      assert old(cfg)[p := old(cfg)[p]] == old(cfg);
      Kept(if on then WakeOn(p) else WakeOff(p));
    }

    method Latched(p: nat)
      requires Usable(p)
      modifies this`cfg, this`latched, this`enabledIrqs, this`dualEdgeIrqs
      ensures Valid() && View() == Apply(chip, old(View()), Latch(p))
    {
      latched := latched[p := true];
    }

    /** One operation of a flow handler. */
    method Perform(op: Op)
      requires Usable(op.pin)
      modifies this
      ensures Valid() && View() == Apply(chip, old(View()), op)
    {
      match op
      case Mask(p, level) => MaskIrq(p, level);
      case Unmask(p) => UnmaskIrq(p);
      case SetType(p, t, parent, rs) =>
        var ok: bool := *;
        SetTypeIrq(p, t, parent, Secure(ok), rs);
      case Ack(p, rs) => AckIrq(p, rs);
      case WakeOn(p) => SetWakeup(p, true);
      case WakeOff(p) => SetWakeup(p, false);
      case Latch(p) => Latched(p);
    }

    /** A stretch of operations: a flow handler, or what happens meanwhile. */
    method PerformAll(ops: seq<Op>)
      requires Valid() && InChip(chip, ops)
      modifies this
      ensures Valid() && View() == Run(chip, old(View()), ops)
    {
      hide Apply;
      assert ops[..0] == [];
      for k := 0 to |ops|
        invariant Valid() && View() == Run(chip, old(View()), ops[..k])
      {
        RunStep(chip, old(View()), ops, k);
        Perform(ops[k]);
      }
      assert ops[..|ops|] == ops;
    }

    /** One round of the loop of msm_gpio_irq_handler. */
    method VisitPin(p: nat, v: Visit) returns (found: bool)
      requires Usable(p) && v.Fits(chip)
      modifies this
      ensures Valid() && View() == Visited(chip, old(View()), p, v) && found == Found(chip, old(View()), p, v)
    {
      hide Run, Apply;
      PerformAll(v.before);
      if p !in enabledIrqs { return false; }
      PerformAll(v.between);
      if !latched[p] { return false; }
      PerformAll(v.flow);
      found := true;
    }

    /** msm_gpio_irq_handler. The scan follows the live bitmap while edges are latched and flow handlers and other
        processors change any pins; it dispatches, once each and in order, exactly the pins whose enable bit is set when
        the scan reaches them and whose status bit is set when it is read, and reports a bad interrupt when there
        are none. */
    method Handler(vs: seq<Visit>) returns (dispatched: seq<nat>, bad: bool)
      requires Valid() && AllFit(chip, vs)
      modifies this
      ensures Valid() && View() == ScanTo(chip, old(View()), vs, |chip.groups|)
      ensures forall i, j :: 0 <= i < j < |dispatched| ==> dispatched[i] < dispatched[j]
      ensures forall p :: p in dispatched <==> 0 <= p < |chip.groups| && Finds(chip, old(View()), vs, p)
      ensures bad <==> forall p :: 0 <= p < |chip.groups| ==> !Finds(chip, old(View()), vs, p)
    {
      hide Visited, Found;
      dispatched := [];
      for i := 0 to |chip.groups|
        invariant Valid() && View() == ScanTo(chip, old(View()), vs, i)
        invariant forall p :: p in dispatched <==> 0 <= p < i && Finds(chip, old(View()), vs, p)
        invariant forall a, b :: 0 <= a < b < |dispatched| ==> dispatched[a] < dispatched[b]
      {
        var found := VisitPin(i, vs[i]);
        assert forall a :: 0 <= a < |dispatched| ==> dispatched[a] in dispatched;
        if found { dispatched := dispatched + [i]; }
      }
      bad := dispatched == [];
      assert !bad ==> dispatched[0] in dispatched;
    }
  }
}
