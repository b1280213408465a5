/** The interrupt side of the TLMM pin controller: one configuration register and one latched status
    bit per pin, and the bitmaps the driver keeps beside them. */
module TlmmIrq {
  import opened RegBits

  datatype Trigger = Rising | Falling | Both | LevelLow | LevelHigh | NoType

  /** Bit positions of one pin's interrupt fields. */
  datatype IrqGroup = IrqGroup(
    enable: nat, raw: nat, polarity: nat, detect: nat, width: nat, wakePresent: nat, wakeEnable: nat,
    targetBit: nat, targetWidth: nat, targetKpss: nat)
  {
    /** Usable as an interrupt, and the enable bit is no other field's bit. */
    predicate Sound() {
      && (width == 1 || width == 2)
      && enable < 32 && raw < 32 && polarity < 32 && detect + width <= 32 && wakeEnable < 32
      && enable != raw && enable != polarity && enable != wakeEnable
      && !(detect <= enable < detect + width)
      && !(detect <= polarity < detect + width)
      && raw != polarity && !(detect <= raw < detect + width)
    }
  }

  /** What the three reads of one round of msm_gpio_update_dual_edge_pos return. */
  datatype Reading = Reading(before: bool, after: bool, status: bool)
  {
    predicate Settled() { status || before == after }
  }

  /** Both dual-edge loops are do loops with loop_limit = 100. */
  const ROUNDS: nat := 101

  /** How many rounds are made, the first being `k`. */
  function Flips(rs: nat -> Reading, k: nat): (n: nat)
    requires k < ROUNDS
    ensures k < n <= ROUNDS
    ensures forall j :: k <= j < n - 1 ==> !rs(j).Settled()
    ensures n < ROUNDS ==> rs(n - 1).Settled()
    decreases ROUNDS - k
  {
    if rs(k).Settled() || k + 1 == ROUNDS then k + 1 else Flips(rs, k + 1)
  }

  /** A register with one bit flipped `n` times. */
  function Flipped(r: Reg, bit: nat, n: nat): Reg {
    if n == 0 then r else Xor(Flipped(r, bit, n - 1), Bit(bit))
  }

  lemma {:induction false} FlippedBits(r: Reg, bit: nat, n: nat)
    ensures forall k :: 0 <= k < 32 ==> Flipped(r, bit, n)[k] == (r[k] != (k == bit && n % 2 == 1))
  {
    if n > 0 { FlippedBits(r, bit, n - 1); }
  }

  /** The configuration msm_gpio_irq_set_type writes. */
  function Typed(g: IrqGroup, val: Reg, t: Trigger): Reg {
    var v := Or(val, Bit(g.raw));
    var v := And(And(v, Not(Shl(Low(g.width), g.detect))), Not(Bit(g.polarity)));
    if g.width == 2 then
      match t
      case Rising => Or(Or(v, Bit(g.detect)), Bit(g.polarity))
      case Falling => Or(Or(v, Bit(g.detect + 1)), Bit(g.polarity))
      case Both => Or(Or(v, Shl(Low(2), g.detect)), Bit(g.polarity))
      case LevelHigh => Or(v, Bit(g.polarity))
      case LevelLow => v
      case NoType => v
    else
      match t
      case Rising => Or(Or(v, Bit(g.detect)), Bit(g.polarity))
      case Falling => Or(v, Bit(g.detect))
      case Both => Or(Or(v, Bit(g.detect)), Bit(g.polarity))
      case LevelHigh => Or(v, Bit(g.polarity))
      case LevelLow => v
      case NoType => v
  }

  /** Two types configure the hardware alike exactly when both leave it at the low level or, on hardware
      that detects one edge at a time, both arm the rising edge. */
  lemma TypesTellApart(g: IrqGroup, val: Reg, t: Trigger, u: Trigger)
    requires g.Sound()
    ensures Typed(g, val, t) == Typed(g, val, u) <==>
      || t == u
      || (t in {LevelLow, NoType} && u in {LevelLow, NoType})
      || (g.width == 1 && t in {Rising, Both} && u in {Rising, Both})
  {
    TypedBits(g, val, t);
    TypedBits(g, val, u);
    var a, b := Typed(g, val, t), Typed(g, val, u);
    if a[g.polarity] == b[g.polarity] && a[g.detect] == b[g.detect] &&
      (g.width == 2 ==> a[g.detect + 1] == b[g.detect + 1]) {
      forall n | 0 <= n < 32 ensures a[n] == b[n] { }
      assert a == b;
    }
  }

  /** Bit by bit: detection, polarity and raw status as the type asks, every other bit as before. */
  lemma TypedBits(g: IrqGroup, val: Reg, t: Trigger)
    requires g.Sound()
    ensures var v := Typed(g, val, t);
      && v[g.raw] && v[g.polarity] == (t in {Rising, Both, LevelHigh} || (t == Falling && g.width == 2))
      && v[g.detect] == (t in {Rising, Both} || (t == Falling && g.width == 1))
      && (g.width == 2 ==> v[g.detect + 1] == (t in {Falling, Both}))
      && forall n :: 0 <= n < 32 && n != g.raw && n != g.polarity && !(g.detect <= n < g.detect + g.width) ==>
        v[n] == val[n]
  {
  }

  /** The interrupt routed to the application processor; three bits wide where the group does not say. */
  function RouteMask(g: IrqGroup): Reg { Low(if g.targetWidth != 0 then g.targetWidth else 3) }

  function Routed(g: IrqGroup, val: Reg): Reg { WithField(val, RouteMask(g), g.targetBit, Of(g.targetKpss)) }

  /** The target field reads as the application processor, where that fits it, and every field apart from it as
      before. */
  lemma RoutedReads(g: IrqGroup, val: Reg, m: Reg, b: nat)
    requires Fits(RouteMask(g), g.targetBit) && And(Of(g.targetKpss), Not(RouteMask(g))) == Zero()
    ensures Field(Routed(g, val), RouteMask(g), g.targetBit) == Of(g.targetKpss)
    ensures Apart(RouteMask(g), g.targetBit, m, b) ==> Field(Routed(g, val), m, b) == Field(val, m, b)
  {
    hide RouteMask, Of, Field;
    FieldOfWithField(val, RouteMask(g), g.targetBit, Of(g.targetKpss));
    if Apart(RouteMask(g), g.targetBit, m, b) {
      OtherFieldKept(val, RouteMask(g), g.targetBit, Of(g.targetKpss), m, b);
    }
  }

  /** Bit by bit, for a number that fits the field: as wide as the group says, or three bits where it does not. */
  lemma RoutedBits(g: IrqGroup, val: Reg, n: nat)
    requires n < 32 && g.targetKpss < Pow2(if g.targetWidth == 0 then 3 else g.targetWidth)
    ensures var w := if g.targetWidth == 0 then 3 else g.targetWidth;
      Routed(g, val)[n] == if g.targetBit <= n < g.targetBit + w then Digit(g.targetKpss, n - g.targetBit) else val[n]
  {
    var w := if g.targetWidth == 0 then 3 else g.targetWidth;
    if g.targetBit + w <= n { NoHighDigits(g.targetKpss, w, n - g.targetBit); }
    hide Digit, Pow2;
  }

  /** What the driver keeps and what the hardware holds. */
  datatype Irqs = Irqs(cfg: seq<Reg>, latched: seq<bool>, enabled: set<nat>, dual: set<nat>)

  /** The interrupt operations on a pin. `parent`: the pin has a parent interrupt; `level`: its current
      trigger is a level; `rs`: what the line does while a dual edge is primed; Latch: the hardware
      sees an edge or a level. */
  datatype Op =
    | Mask(pin: nat, level: bool)
    | Unmask(pin: nat)
    | SetType(pin: nat, t: Trigger, parent: bool, rs: nat -> Reading)
    | Ack(pin: nat, rs: nat -> Reading)
    | WakeOn(pin: nat)
    | WakeOff(pin: nat)
    | Latch(pin: nat)

  /** The chip: its pins, the pins its parent handles, and whether the parent needs the dual-edge
      workaround. */
  datatype Chip = Chip(groups: seq<IrqGroup>, skipWake: set<nat>, errata: bool)
  {
    predicate Sound() {
      forall p :: 0 <= p < |groups| ==> groups[p].Sound()
    }

    predicate Fits(s: Irqs) {
      |s.cfg| == |groups| && |s.latched| == |groups|
    }
  }

  function Reconfigure(s: Irqs, p: nat, r: Reg): (t: Irqs)
    requires p < |s.cfg|
    ensures |t.cfg| == |s.cfg|
  {
    s.(cfg := s.cfg[p := r])
  }

  /** The polarity is flipped until the line holds still or an edge has been caught. */
  function Primed(c: Chip, s: Irqs, p: nat, rs: nat -> Reading): (t: Irqs)
    requires c.Fits(s) && p < |c.groups|
    ensures c.Fits(t)
  {
    if p in s.dual then Reconfigure(s, p, Flipped(s.cfg[p], c.groups[p].polarity, Flips(rs, 0))) else s
  }

  function Acked(s: Irqs, p: nat): (t: Irqs)
    requires p < |s.latched|
    ensures |t.latched| == |s.latched|
  {
    s.(latched := s.latched[p := false])
  }

  function MaskCfg(g: IrqGroup, val: Reg, level: bool): Reg {
    And(if level then And(val, Not(Bit(g.raw))) else val, Not(Bit(g.enable)))
  }

  function UnmaskCfg(g: IrqGroup, val: Reg): Reg {
    Or(Or(val, Bit(g.raw)), Bit(g.enable))
  }

  /** The parent catches one edge at a time and the pin asks for both. */
  predicate ByParent(c: Chip, p: nat, t: Trigger, parent: bool) {
    t == Both && c.errata && parent && p in c.skipWake
  }

  /** The registers and bitmaps once the new type is written, before a dual edge is primed. */
  function Retyped(c: Chip, s: Irqs, p: nat, t: Trigger): (u: Irqs)
    requires c.Fits(s) && p < |c.groups|
    ensures c.Fits(u)
  {
    var g := c.groups[p];
    var val := Typed(g, s.cfg[p], t);
    s.(dual := if g.width == 1 && t == Both then s.dual + {p} else s.dual - {p},
       cfg := s.cfg[p := val],
       latched := if val != s.cfg[p] then s.latched[p := false] else s.latched)
  }

  function SetTypeOf(c: Chip, s: Irqs, p: nat, t: Trigger, parent: bool, rs: nat -> Reading): (u: Irqs)
    requires c.Fits(s) && p < |c.groups|
    ensures c.Fits(u)
  {
    if ByParent(c, p, t, parent) then s.(dual := s.dual + {p})
    else if p in c.skipWake then s.(dual := s.dual - {p})
    else Primed(c, Retyped(c, s, p, t), p, rs)
  }

  function WakeCfg(g: IrqGroup, val: Reg, on: bool): Reg {
    if g.wakePresent != 0 && And(val, Bit(g.wakePresent)) != Zero()
    then (if on then Or(val, Bit(g.wakeEnable)) else And(val, Not(Bit(g.wakeEnable))))
    else val
  }

  function Apply(c: Chip, s: Irqs, op: Op): (t: Irqs)
    requires c.Fits(s) && op.pin < |c.groups|
    ensures c.Fits(t)
  {
    var p := op.pin;
    var g := c.groups[p];
    match op
    case Mask(_, level) =>
      if p in c.skipWake then s else Reconfigure(s, p, MaskCfg(g, s.cfg[p], level)).(enabled := s.enabled - {p})
    case Unmask(_) =>
      if p in c.skipWake then s else Reconfigure(s, p, UnmaskCfg(g, s.cfg[p])).(enabled := s.enabled + {p})
    case SetType(_, t, parent, rs) => SetTypeOf(c, s, p, t, parent, rs)
    case Ack(_, rs) => if p in c.skipWake then s else Primed(c, Acked(s, p), p, rs)
    case WakeOn(_) => if p in c.skipWake then Reconfigure(s, p, WakeCfg(g, s.cfg[p], true)) else s
    case WakeOff(_) => if p in c.skipWake then Reconfigure(s, p, WakeCfg(g, s.cfg[p], false)) else s
    case Latch(_) => s.(latched := s.latched[p := true])
  }

  predicate InChip(c: Chip, ops: seq<Op>) {
    forall k :: 0 <= k < |ops| ==> ops[k].pin < |c.groups|
  }

  function Run(c: Chip, s: Irqs, ops: seq<Op>): (t: Irqs)
    requires c.Fits(s) && InChip(c, ops)
    ensures c.Fits(t)
    decreases |ops|
  {
    if ops == [] then s else Apply(c, Run(c, s, ops[..|ops| - 1]), ops[|ops| - 1])
  }

  // ---------------------------------------------------------------- index agreement

  /** The bitmap says of the pin what its enable bit says. */
  predicate Agrees(c: Chip, s: Irqs, p: nat)
    requires c.Sound() && c.Fits(s) && p < |c.groups|
  {
    p in s.enabled <==> s.cfg[p][c.groups[p].enable]
  }

  /** The operations that write the pin's enable bit. */
  predicate Writes(c: Chip, op: Op, p: nat) {
    op.pin == p && p !in c.skipWake && (op.Mask? || op.Unmask?)
  }

  lemma PrimedKeeps(c: Chip, s: Irqs, p: nat, rs: nat -> Reading)
    requires c.Sound() && c.Fits(s) && p < |c.groups|
    ensures var t := Primed(c, s, p, rs); t == s.(cfg := s.cfg[p := t.cfg[p]])
    ensures Primed(c, s, p, rs).cfg[p][c.groups[p].enable] == s.cfg[p][c.groups[p].enable]
  {
    FlippedBits(s.cfg[p], c.groups[p].polarity, Flips(rs, 0));
    assert s.cfg[p := s.cfg[p]] == s.cfg;
  }

  lemma RetypedKeeps(c: Chip, s: Irqs, p: nat, t: Trigger)
    requires c.Sound() && c.Fits(s) && p < |c.groups|
    ensures var u := Retyped(c, s, p, t);
      && u.enabled == s.enabled && u.cfg == s.cfg[p := u.cfg[p]] && u.latched == s.latched[p := u.latched[p]]
      && u.cfg[p][c.groups[p].enable] == s.cfg[p][c.groups[p].enable]
  {
    TypedBits(c.groups[p], s.cfg[p], t);
    assert s.latched[p := s.latched[p]] == s.latched;
  }

  lemma SetTypeKeeps(c: Chip, s: Irqs, p: nat, t: Trigger, parent: bool, rs: nat -> Reading)
    requires c.Sound() && c.Fits(s) && p < |c.groups|
    ensures var u := SetTypeOf(c, s, p, t, parent, rs);
      && u.enabled == s.enabled && u.cfg == s.cfg[p := u.cfg[p]] && u.latched == s.latched[p := u.latched[p]]
      && u.cfg[p][c.groups[p].enable] == s.cfg[p][c.groups[p].enable]
  {
    if p in c.skipWake {
      assert s.cfg[p := s.cfg[p]] == s.cfg && s.latched[p := s.latched[p]] == s.latched;
    } else {
      RetypedKeeps(c, s, p, t);
      PrimedKeeps(c, Retyped(c, s, p, t), p, rs);
    }
  }

  /** An operation touches its own pin's registers and bits only. */
  lemma OwnPin(c: Chip, s: Irqs, op: Op)
    requires c.Sound() && c.Fits(s) && op.pin < |c.groups|
    ensures var t := Apply(c, s, op); var p := op.pin;
      && t.cfg == s.cfg[p := t.cfg[p]] && t.latched == s.latched[p := t.latched[p]]
      && t.enabled - {p} == s.enabled - {p}
  {
    var p := op.pin;
    assert s.cfg[p := s.cfg[p]] == s.cfg && s.latched[p := s.latched[p]] == s.latched;
    match op
    case SetType(_, t, parent, rs) => SetTypeKeeps(c, s, p, t, parent, rs);
    case Ack(_, rs) => PrimedKeeps(c, Acked(s, p), p, rs);
    case _ =>
  }

  /** After an operation that writes the enable bit, bit and bitmap agree; any other operation moves
      neither. */
  lemma OpAgrees(c: Chip, s: Irqs, op: Op, p: nat)
    requires c.Sound() && c.Fits(s) && op.pin < |c.groups| && p < |c.groups|
    ensures Agrees(c, Apply(c, s, op), p) <==> Agrees(c, s, p) || Writes(c, op, p)
  {
    if op.pin != p {
      OwnPin(c, s, op);
      assert p in Apply(c, s, op).enabled <==> p in s.enabled by {
        assert p in Apply(c, s, op).enabled - {op.pin} <==> p in s.enabled - {op.pin};
      }
    } else {
      match op
      case SetType(_, t, parent, rs) => SetTypeKeeps(c, s, p, t, parent, rs);
      case Ack(_, rs) => PrimedKeeps(c, Acked(s, p), p, rs);
      case _ =>
    }
  }

  /** After any run of interrupt operations the bitmap agrees with a pin's enable bit exactly when it
      agreed at the start or the run masked or unmasked the pin itself. */
  lemma {:induction false} AgreesExactly(c: Chip, s: Irqs, ops: seq<Op>, p: nat)
    requires c.Sound() && c.Fits(s) && InChip(c, ops) && p < |c.groups|
    ensures Agrees(c, Run(c, s, ops), p) <==> Agrees(c, s, p) || exists k :: 0 <= k < |ops| && Writes(c, ops[k], p)
    decreases |ops|
  {
    if ops != [] {
      var rest, last := ops[..|ops| - 1], ops[|ops| - 1];
      AgreesExactly(c, s, rest, p);
      OpAgrees(c, Run(c, s, rest), last, p);
      if k :| 0 <= k < |rest| && Writes(c, rest[k], p) { assert Writes(c, ops[k], p); }
      if k :| 0 <= k < |ops| && Writes(c, ops[k], p) { assert k == |ops| - 1 || rest[k] == ops[k]; }
    }
  }

  /** A pin the handler dispatches. */
  predicate Fires(c: Chip, s: Irqs, p: nat)
    requires c.Sound() && c.Fits(s) && p < |c.groups|
  {
    s.cfg[p][c.groups[p].enable] && s.latched[p]
  }

  /** From clear enable bits and an empty bitmap, after any run, the pins whose bitmap bit and status
      are set are those whose enable bit and status are set. */
  lemma BitmapScanIsRegisterScan(c: Chip, s: Irqs, ops: seq<Op>)
    requires c.Sound() && c.Fits(s) && InChip(c, ops) && s.enabled == {}
    requires forall p :: 0 <= p < |c.groups| ==> !s.cfg[p][c.groups[p].enable]
    ensures var t := Run(c, s, ops);
      forall p :: 0 <= p < |c.groups| ==> (p in t.enabled && t.latched[p] <==> Fires(c, t, p))
  {
    var t := Run(c, s, ops);
    forall p | 0 <= p < |c.groups| ensures p in t.enabled && t.latched[p] <==> Fires(c, t, p) {
      AgreesExactly(c, s, ops, p);
      assert Agrees(c, t, p);
    }
  }

  // ---------------------------------------------------------------- what the operations leave

  /** Masking clears the enable bit, of a level the raw status bit too; unmasking sets both; every other bit is kept. */
  lemma MaskBits(c: Chip, s: Irqs, p: nat, level: bool, n: nat)
    requires c.Sound() && c.Fits(s) && p < |c.groups| && p !in c.skipWake && n < 32
    ensures var g := c.groups[p];
      && Apply(c, s, Mask(p, level)).cfg[p][n] == (s.cfg[p][n] && n != g.enable && !(level && n == g.raw))
      && Apply(c, s, Unmask(p)).cfg[p][n] == (s.cfg[p][n] || n == g.enable || n == g.raw)
      && p !in Apply(c, s, Mask(p, level)).enabled && p in Apply(c, s, Unmask(p)).enabled
  {
  }

  /** So an interrupt is enabled after a run exactly as the last mask or unmask of it left it. */
  lemma {:induction false} EnabledAsLast(c: Chip, s: Irqs, ops: seq<Op>, p: nat, k: nat)
    requires c.Sound() && c.Fits(s) && InChip(c, ops) && p < |c.groups| && k <= |ops|
    requires k > 0 ==> Writes(c, ops[k - 1], p)
    requires forall j :: k <= j < |ops| ==> !Writes(c, ops[j], p)
    ensures var t := Run(c, s, ops); var bit := c.groups[p].enable;
      && t.cfg[p][bit] == (if k > 0 then ops[k - 1].Unmask? else s.cfg[p][bit])
      && (p in t.enabled <==> if k > 0 then ops[k - 1].Unmask? else p in s.enabled)
    decreases |ops|
  {
    hide Apply;
    if ops != [] {
      var n := |ops| - 1;
      var u := Run(c, s, ops[..n]);
      if k == |ops| {
        MaskBits(c, u, p, ops[n].Mask? && ops[n].level, c.groups[p].enable);
      } else {
        EnabledAsLast(c, s, ops[..n], p, k);
        EnabledKept(c, u, ops[n], p);
      }
    }
  }

  lemma EnabledKept(c: Chip, s: Irqs, op: Op, p: nat)
    requires c.Sound() && c.Fits(s) && op.pin < |c.groups| && p < |c.groups| && !Writes(c, op, p)
    ensures var bit := c.groups[p].enable;
      Apply(c, s, op).cfg[p][bit] == s.cfg[p][bit] && (p in Apply(c, s, op).enabled <==> p in s.enabled)
  {
    OwnPin(c, s, op);
    if op.pin != p {
      assert p in Apply(c, s, op).enabled - {op.pin} <==> p in s.enabled - {op.pin};
    } else {
      match op
      case SetType(_, t, parent, rs) => SetTypeKeeps(c, s, p, t, parent, rs);
      case Ack(_, rs) => PrimedKeeps(c, Acked(s, p), p, rs);
      case _ =>
    }
  }

  /** The wakeup bit follows the request on the pins a parent handles, where the hardware has one, and nothing else. */
  lemma WakeBits(c: Chip, s: Irqs, p: nat, on: bool, n: nat)
    requires c.Sound() && c.Fits(s) && p < |c.groups| && n < 32 && c.groups[p].wakePresent < 32
    ensures var g := c.groups[p];
      Apply(c, s, if on then WakeOn(p) else WakeOff(p)).cfg[p][n] ==
        if p in c.skipWake && g.wakePresent != 0 && s.cfg[p][g.wakePresent] && n == g.wakeEnable then on
        else s.cfg[p][n]
  {
    var g := c.groups[p];
    assert And(s.cfg[p], Bit(g.wakePresent)) != Zero() <==> s.cfg[p][g.wakePresent] by {
      if s.cfg[p][g.wakePresent] { assert And(s.cfg[p], Bit(g.wakePresent))[g.wakePresent]; }
      else { assert And(s.cfg[p], Bit(g.wakePresent)) == Zero(); }
    }
  }

  /** Which pins are dual-edge: the last type asked of the pin was both edges, and its own hardware, or a parent with
      the erratum, sees one edge at a time. */
  lemma {:induction false} DualAsLast(c: Chip, s: Irqs, ops: seq<Op>, p: nat, k: nat)
    requires c.Fits(s) && InChip(c, ops) && p < |c.groups| && k <= |ops|
    requires k > 0 ==> ops[k - 1].SetType? && ops[k - 1].pin == p
    requires forall j :: k <= j < |ops| ==> !(ops[j].SetType? && ops[j].pin == p)
    ensures k == 0 ==> (p in Run(c, s, ops).dual <==> p in s.dual)
    ensures k > 0 ==>
      (p in Run(c, s, ops).dual <==>
        && ops[k - 1].t == Both
        && if p in c.skipWake then c.errata && ops[k - 1].parent else c.groups[p].width == 1)
    decreases |ops|
  {
    hide Apply;
    if ops != [] {
      var n := |ops| - 1;
      DualStep(c, Run(c, s, ops[..n]), ops[n], p);
      if k < |ops| { DualAsLast(c, s, ops[..n], p, k); }
    }
  }

  lemma DualStep(c: Chip, s: Irqs, op: Op, p: nat)
    requires c.Fits(s) && op.pin < |c.groups| && p < |c.groups|
    ensures !(op.SetType? && op.pin == p) ==> (p in Apply(c, s, op).dual <==> p in s.dual)
    ensures op.SetType? && op.pin == p ==>
      (p in Apply(c, s, op).dual <==>
        && op.t == Both
        && if p in c.skipWake then c.errata && op.parent else c.groups[p].width == 1)
  {
    hide Typed, Flipped, Flips, MaskCfg, UnmaskCfg, WakeCfg;
  }

  // ---------------------------------------------------------------- what a latched status bit means

  /** The operation drops what the pin has latched: an acknowledgement, or a type that changes its configuration. */
  predicate Drops(c: Chip, s: Irqs, op: Op, p: nat)
    requires c.Fits(s) && p < |c.groups|
  {
    && op.pin == p && p !in c.skipWake
    && (op.Ack? || (op.SetType? && Typed(c.groups[p], s.cfg[p], op.t) != s.cfg[p]))
  }

  /** The hardware latches the pin. */
  predicate Latches(op: Op, p: nat) { op.Latch? && op.pin == p }

  lemma OpLatches(c: Chip, s: Irqs, op: Op, p: nat)
    requires c.Fits(s) && op.pin < |c.groups| && p < |c.groups|
    ensures Apply(c, s, op).latched[p] <==> Latches(op, p) || (s.latched[p] && !Drops(c, s, op, p))
  {
    hide Typed, Flipped, Flips;
  }

  /** Nothing from operation `k` on drops what the pin has latched. */
  ghost predicate KeptSince(c: Chip, s: Irqs, ops: seq<Op>, k: nat, p: nat)
    requires c.Fits(s) && InChip(c, ops) && p < |c.groups|
    decreases |ops|
  {
    k >= |ops| ||
    var n := |ops| - 1;
    !Drops(c, Run(c, s, ops[..n]), ops[n], p) && KeptSince(c, s, ops[..n], k, p)
  }

  lemma KeptLonger(c: Chip, s: Irqs, ops: seq<Op>, k: nat, p: nat)
    requires c.Fits(s) && InChip(c, ops) && p < |c.groups| && k < |ops|
    ensures var n := |ops| - 1;
      KeptSince(c, s, ops, k, p) <==> KeptSince(c, s, ops[..n], k, p) && !Drops(c, Run(c, s, ops[..n]), ops[n], p)
  {
  }

  lemma {:induction false} DropsSince(c: Chip, s: Irqs, ops: seq<Op>, k: nat, p: nat, j: nat)
    requires c.Fits(s) && InChip(c, ops) && p < |c.groups| && k <= j < |ops|
    requires Drops(c, Run(c, s, ops[..j]), ops[j], p)
    ensures !KeptSince(c, s, ops, k, p)
    decreases |ops|
  {
    hide Drops, Run;
    var n := |ops| - 1;
    if j < n {
      assert ops[..n][..j] == ops[..j] && ops[..n][j] == ops[j];
      DropsSince(c, s, ops[..n], k, p, j);
    }
  }

  /** The pin latched at the start, or in the run, and nothing has dropped that since. */
  ghost predicate StillLatched(c: Chip, s: Irqs, ops: seq<Op>, p: nat)
    requires c.Fits(s) && InChip(c, ops) && p < |c.groups|
  {
    || (s.latched[p] && KeptSince(c, s, ops, 0, p))
    || exists k :: 0 <= k < |ops| && Latches(ops[k], p) && KeptSince(c, s, ops, k + 1, p)
  }

  lemma LatchStays(c: Chip, s: Irqs, ops: seq<Op>, p: nat)
    requires c.Fits(s) && InChip(c, ops) && p < |c.groups| && ops != []
    requires var n := |ops| - 1;
      Latches(ops[n], p) || (StillLatched(c, s, ops[..n], p) && !Drops(c, Run(c, s, ops[..n]), ops[n], p))
    ensures StillLatched(c, s, ops, p)
  {
    hide Drops, Run;
    var n := |ops| - 1;
    if !Latches(ops[n], p) && !(s.latched[p] && KeptSince(c, s, ops[..n], 0, p)) {
      var k :| 0 <= k < n && Latches(ops[..n][k], p) && KeptSince(c, s, ops[..n], k + 1, p);
      assert Latches(ops[k], p);
    }
  }

  lemma LatchWasThere(c: Chip, s: Irqs, ops: seq<Op>, p: nat)
    requires c.Fits(s) && InChip(c, ops) && p < |c.groups| && ops != [] && StillLatched(c, s, ops, p)
    ensures var n := |ops| - 1;
      Latches(ops[n], p) || (StillLatched(c, s, ops[..n], p) && !Drops(c, Run(c, s, ops[..n]), ops[n], p))
  {
    hide Drops, Run, KeptSince;
    var n := |ops| - 1;
    if !Latches(ops[n], p) {
      if s.latched[p] && KeptSince(c, s, ops, 0, p) {
        KeptLonger(c, s, ops, 0, p);
      } else {
        var k :| 0 <= k < |ops| && Latches(ops[k], p) && KeptSince(c, s, ops, k + 1, p);
        KeptLonger(c, s, ops, k + 1, p);
        assert Latches(ops[..n][k], p);
      }
    }
  }

  /** A pin's status bit is set after a run exactly when it was set at the start, or the hardware latched it in the run,
      and nothing has dropped that since. */
  lemma {:induction false} LatchedExactly(c: Chip, s: Irqs, ops: seq<Op>, p: nat)
    requires c.Fits(s) && InChip(c, ops) && p < |c.groups|
    ensures Run(c, s, ops).latched[p] <==> StillLatched(c, s, ops, p)
    decreases |ops|
  {
    hide Apply, Drops, StillLatched;
    if ops == [] {
      NoneYet(c, s, p);
    } else {
      var n := |ops| - 1;
      LatchedExactly(c, s, ops[..n], p);
      OpLatches(c, Run(c, s, ops[..n]), ops[n], p);
      if Run(c, s, ops).latched[p] { LatchStays(c, s, ops, p); }
      if StillLatched(c, s, ops, p) { LatchWasThere(c, s, ops, p); }
    }
  }

  lemma NoneYet(c: Chip, s: Irqs, p: nat)
    requires c.Fits(s) && p < |c.groups|
    ensures StillLatched(c, s, [], p) <==> s.latched[p]
  {
  }

  /** So a scan does not find a pin again that has been acknowledged and has not latched since, whatever else has been
      done meanwhile. */
  lemma AckedIsNotFound(c: Chip, s: Irqs, ops: seq<Op>, a: nat, p: nat)
    requires c.Sound() && c.Fits(s) && InChip(c, ops) && p < |c.groups| && p !in c.skipWake
    requires a < |ops| && ops[a].Ack? && ops[a].pin == p && forall k :: a < k < |ops| ==> !Latches(ops[k], p)
    ensures !Run(c, s, ops).latched[p] && !Fires(c, Run(c, s, ops), p)
  {
    LatchedExactly(c, s, ops, p);
    assert Drops(c, Run(c, s, ops[..a]), ops[a], p);
    hide Drops, Run, KeptSince;
    forall k | 0 <= k <= a ensures !KeptSince(c, s, ops, k, p) { DropsSince(c, s, ops, k, p, a); }
  }

  // ---------------------------------------------------------------- the relative flip

  /** The line has changed an odd number of times between rounds: after the last read of one and before the first
      read of the next. */
  predicate OddGaps(rs: nat -> Reading, n: nat) {
    n > 1 && OddGaps(rs, n - 1) != (rs(n - 1).before != rs(n - 2).after)
  }

  /** Through rounds that do not settle the line alternates, apart from what it does between rounds. */
  lemma {:induction false} Alternates(rs: nat -> Reading, n: nat)
    requires n > 0 && forall j :: 0 <= j < n - 1 ==> !rs(j).Settled()
    ensures rs(n - 1).before == (rs(0).before != ((n % 2 == 0) != OddGaps(rs, n)))
  {
    if n > 1 { Alternates(rs, n - 1); }
  }

  /** The last level read, from the first: however many rounds were made, whether an edge was caught, the line held
      still or the loop limit was reached. */
  lemma LastLevel(rs: nat -> Reading, n: nat)
    requires n == Flips(rs, 0)
    ensures rs(n - 1).after ==
      (rs(0).before != ((n % 2 == 0) != (OddGaps(rs, n) != (rs(n - 1).before != rs(n - 1).after))))
  {
    hide Flips, OddGaps;
    Alternates(rs, n);
  }

  /** The flip is right by parity: it leaves the edge away from the last level read armed exactly when the edge armed
      before was the one towards the first level read, but for changes of the line that no round saw and a last
      round that did see one. */
  ghost predicate FlipsRight(rs: nat -> Reading, risingBefore: bool) {
    var n := Flips(rs, 0);
    (risingBefore == rs(0).before) == (OddGaps(rs, n) == (rs(n - 1).before != rs(n - 1).after))
  }

  lemma FlipArms(r: Reg, bit: nat, rs: nat -> Reading)
    requires bit < 32
    ensures var n := Flips(rs, 0); Flipped(r, bit, n)[bit] == !rs(n - 1).after <==> FlipsRight(rs, r[bit])
  {
    hide Flips, OddGaps, Flipped;
    var n := Flips(rs, 0);
    FlippedBits(r, bit, n);
    LastLevel(rs, n);
  }

  /** Both edges asked for on hardware with one edge at a time, whatever the line does meanwhile: the edge away from the
      level last read is armed exactly as if the rising edge had been armed before. */
  lemma BothArmsExactly(c: Chip, s: Irqs, p: nat, parent: bool, rs: nat -> Reading)
    requires c.Sound() && c.Fits(s) && p < |c.groups| && c.groups[p].width == 1 && p !in c.skipWake
    ensures var armedRising := SetTypeOf(c, s, p, Both, parent, rs).cfg[p][c.groups[p].polarity];
      armedRising == !rs(Flips(rs, 0) - 1).after <==> FlipsRight(rs, true)
  {
    hide Flips, Typed, Flipped, FlipsRight;
    var g := c.groups[p];
    TypedBits(g, s.cfg[p], Both);
    FlipArms(Typed(g, s.cfg[p], Both), g.polarity, rs);
  }

  /** An acknowledged edge, whatever the line does meanwhile. */
  lemma AckArmsExactly(c: Chip, s: Irqs, p: nat, rs: nat -> Reading)
    requires c.Sound() && c.Fits(s) && p < |c.groups| && p in s.dual && p !in c.skipWake
    ensures var g := c.groups[p];
      Apply(c, s, Ack(p, rs)).cfg[p][g.polarity] == !rs(Flips(rs, 0) - 1).after <==>
        FlipsRight(rs, s.cfg[p][g.polarity])
  {
    hide Flips, Flipped, FlipsRight;
    FlipArms(s.cfg[p], c.groups[p].polarity, rs);
  }

  /** The rounds see every change of the line, and the last of them sees it hold still. */
  ghost predicate Watched(rs: nat -> Reading) {
    var n := Flips(rs, 0);
    && rs(n - 1).before == rs(n - 1).after
    && forall j :: 0 < j < n ==> rs(j).before == rs(j - 1).after
  }

  lemma {:induction false} NoGaps(rs: nat -> Reading, n: nat)
    requires forall j :: 0 < j < n ==> rs(j).before == rs(j - 1).after
    ensures !OddGaps(rs, n)
  {
    if n > 1 { NoGaps(rs, n - 1); }
  }

  /** On a watched line, after any number of rounds, only the beginning counts: the rising edge must have been armed
      on a high line, or the falling edge on a low one. */
  lemma WatchedFlips(rs: nat -> Reading, risingBefore: bool)
    requires Watched(rs)
    ensures FlipsRight(rs, risingBefore) <==> risingBefore == rs(0).before
  {
    hide Flips;
    NoGaps(rs, Flips(rs, 0));
  }

  /** So asking for both edges arms the right one exactly when the line was high at the beginning. */
  lemma BothOnWatchedLine(c: Chip, s: Irqs, p: nat, parent: bool, rs: nat -> Reading)
    requires c.Sound() && c.Fits(s) && p < |c.groups| && c.groups[p].width == 1 && p !in c.skipWake && Watched(rs)
    ensures var armedRising := SetTypeOf(c, s, p, Both, parent, rs).cfg[p][c.groups[p].polarity];
      armedRising == !rs(Flips(rs, 0) - 1).after <==> rs(0).before
  {
    hide Flips, SetTypeOf, Watched, FlipsRight;
    BothArmsExactly(c, s, p, parent, rs);
    WatchedFlips(rs, true);
  }

  /** And an acknowledgement does exactly when the edge armed before led to the level at the beginning. */
  lemma AckOnWatchedLine(c: Chip, s: Irqs, p: nat, rs: nat -> Reading)
    requires c.Sound() && c.Fits(s) && p < |c.groups| && p in s.dual && p !in c.skipWake && Watched(rs)
    ensures var g := c.groups[p];
      Apply(c, s, Ack(p, rs)).cfg[p][g.polarity] == !rs(Flips(rs, 0) - 1).after <==>
        s.cfg[p][g.polarity] == rs(0).before
  {
    hide Flips, Apply, Watched, FlipsRight;
    AckArmsExactly(c, s, p, rs);
    WatchedFlips(rs, s.cfg[p][c.groups[p].polarity]);
  }

  /** A line that holds still: one flip, blindly. With both edges asked for, the next change is caught exactly when the
      line is high. */
  lemma BothOnSteadyLine(c: Chip, s: Irqs, p: nat, parent: bool, rs: nat -> Reading, level: bool)
    requires c.Sound() && c.Fits(s) && p < |c.groups| && c.groups[p].width == 1 && p !in c.skipWake
    requires forall k :: rs(k) == Reading(level, level, false)
    ensures var armedRising := SetTypeOf(c, s, p, Both, parent, rs).cfg[p][c.groups[p].polarity];
      armedRising == !level <==> level
  {
    hide Flips, SetTypeOf;
    BothOnWatchedLine(c, s, p, parent, rs);
  }

  /** An acknowledged edge on it re-arms the right one exactly when the edge armed before led to this level. */
  lemma AckOnSteadyLine(c: Chip, s: Irqs, p: nat, rs: nat -> Reading, level: bool)
    requires c.Sound() && c.Fits(s) && p < |c.groups| && p in s.dual && p !in c.skipWake
    requires forall k :: rs(k) == Reading(level, level, false)
    ensures var g := c.groups[p];
      Apply(c, s, Ack(p, rs)).cfg[p][g.polarity] == !level <==> s.cfg[p][g.polarity] == level
  {
    hide Flips, Apply;
    AckOnWatchedLine(c, s, p, rs);
  }
}
